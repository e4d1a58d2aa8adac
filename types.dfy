/**
 * internal/kubeconfig/types.go: provider kinds, the domain allow-list, the
 * context list and the connection record the reconciler passes around.
 */
module Types {
  import opened Wrappers
  import opened Text
  import opened Net
  import opened Helpers
  import opened KubeApi

  datatype ProviderKind = Unknown | Aws | Azure | Gcp | Oidc | ClientCert

  /** The string each provider kind stands for. */
  function ProviderName(p: ProviderKind): (r: string)
    ensures r != []
  {
    match p
    case Unknown => "unknown"
    case Aws => "aws"
    case Azure => "azure"
    case Gcp => "gcp"
    case Oidc => "oidc"
    case ClientCert => "client-cert"
  }

  /** Domains every allow-list starts with. */
  const DefaultAllowedDomains: seq<string> :=
    ["cluster.local", "localhost", "127.0.0.1", "localhost.localdomain", "localhost.localstack.cloud"]

  /** The five defaults followed by the configured domains, appended one at a time. */
  method NewAllowedDomains(domains: seq<string>) returns (r: seq<string>)
    ensures r == DefaultAllowedDomains + domains
    ensures |r| == 5 + |domains|
  {
    r := DefaultAllowedDomains;
    var i := 0;
    while i < |domains|
      invariant 0 <= i <= |domains|
      invariant r == DefaultAllowedDomains + domains[..i]
    {
      r := r + [domains[i]];
      i := i + 1;
    }
    assert domains[..i] == domains;
  }

  /**
   * AllowedDomains.Has: some entry equals `domain` verbatim, or `domain`
   * splits into scheme, host and port and some entry equals that host.
   * There is no suffix matching.
   */
  function Has(allowed: seq<string>, domain: string): (r: bool)
    ensures r <==> (domain in allowed ||
      (AddressToSchemeHostPort(domain).err.None? && AddressToSchemeHostPort(domain).host in allowed))
  {
    if allowed == [] then false
    else if allowed[0] == domain then true
    else
      var parsed := AddressToSchemeHostPort(domain);
      if parsed.err.None? && allowed[0] == parsed.host then true
      else Has(allowed[1..], domain)
  }

  /** A context as listContexts reports it. */
  datatype Context = Context(name: string, user: string, cluster: string)

  /** ContextList.Find: the first context with that name, if any. */
  function Find(contexts: seq<Context>, name: string): (r: Option<Context>)
    ensures r.None? <==> forall i :: 0 <= i < |contexts| ==> contexts[i].name != name
    ensures r.Some? ==> r.value in contexts && r.value.name == name
  {
    if contexts == [] then None
    else if contexts[0].name == name then Some(contexts[0])
    else Find(contexts[1..], name)
  }

  /**
   * kconfig: the provider, the host the server named before remapping, the
   * configured remap target, the port, and the REST settings.
   */
  datatype KConfig = KConfig(
    provider: ProviderKind,
    originalIp: string,
    remappedIp: string,
    port: string,
    rest: RestConfig)

  // ---- properties ----

  /** Every default domain is allowed whatever is configured. */
  lemma DefaultsAlwaysAllowed(domains: seq<string>, d: string)
    requires d in DefaultAllowedDomains
    ensures Has(DefaultAllowedDomains + domains, d)
  {
  }

  /** An empty list allows nothing. */
  lemma NothingInEmpty(d: string)
    ensures !Has([], d)
  {
  }

  /** Appending entries on either side never turns a match into a miss. */
  lemma HasMonotone(a: seq<string>, b: seq<string>, d: string)
    ensures Has(a, d) ==> Has(a + b, d)
    ensures Has(b, d) ==> Has(a + b, d)
  {
  }

  /**
   * A candidate with no '/' never parses to a host, so only a verbatim
   * entry matches it; this is how Has treats a bare host name.
   */
  lemma HasBareName(allowed: seq<string>, d: string)
    requires '/' !in d
    ensures Has(allowed, d) <==> d in allowed
  {
    NoAuthorityIsError(d);
  }

  /** "https://localhost:6443" is allowed by the "localhost" default through its host. */
  lemma LocalhostUrlAllowed(domains: seq<string>, address: string)
    requires address == "https://localhost:6443"
    ensures Has(DefaultAllowedDomains + domains, address)
  {
    LocalhostUrl(address);
    SecondDefault(domains);
    AllowedByHost(DefaultAllowedDomains + domains, address, 1);
  }

  lemma SecondDefault(domains: seq<string>)
    ensures (DefaultAllowedDomains + domains)[1] == "localhost"
  {
    assert |DefaultAllowedDomains| == 5 && DefaultAllowedDomains[1] == "localhost";
  }

  lemma AllowedByHost(allowed: seq<string>, domain: string, i: nat)
    requires i < |allowed| && AddressToSchemeHostPort(domain).err.None?
    requires allowed[i] == AddressToSchemeHostPort(domain).host
    ensures Has(allowed, domain)
  {
  }

  /** Matching is exact: a subdomain of "cluster.local" is not allowed by the defaults. */
  lemma NoSuffixMatch(address: string)
    requires address == "https://api.cluster.local:6443"
    ensures !Has(DefaultAllowedDomains, address)
  {
    assert AddressToSchemeHostPort(address).host == "api.cluster.local" by { SubdomainUrl(address); }
    NotADefault("api.cluster.local");
    NotADefault(address);
  }

  /** A string whose length is not that of any default is not a default. */
  lemma NotADefault(d: string)
    requires |d| !in {13, 9, 21, 26}
    ensures d !in DefaultAllowedDomains
  {
    assert forall e :: e in DefaultAllowedDomains ==> |e| in {13, 9, 21, 26};
  }

  /** Find returns the first context carrying the name. */
  lemma {:induction false} FindFirst(contexts: seq<Context>, name: string, i: nat)
    requires i < |contexts| && contexts[i].name == name
    requires forall j :: 0 <= j < i ==> contexts[j].name != name
    ensures Find(contexts, name) == Some(contexts[i])
  {
    if i > 0 {
      FindFirst(contexts[1..], name, i - 1);
    }
  }
}
