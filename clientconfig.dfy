/**
 * internal/kubeconfig/clientconfig.go: assemble the connection record for
 * one kubeconfig context from the parsed kubeconfig document.
 */
module ClientConfiguration {
  import opened Wrappers
  import opened Helpers
  import opened KubeApi
  import opened Types
  import opened Hostname

  datatype ConfigError =
    | BaseConfigFailed
    | StartingConfigFailed
    | ContextNotFound
    | ClusterNotFound
    | AuthInfoNotFound
    | RemapFailed(cause: AddressError)

  /** The exec command of an auth-info, or "" when it has no exec block. */
  function ExecCommand(auth: AuthInfo): string {
    if auth.exec.Some? then auth.exec.value.command else ""
  }

  /** The provider switch: the two AWS authenticator commands mean AWS, anything else client certificates. */
  function Classify(auth: AuthInfo): (p: ProviderKind)
    ensures p == Aws <==> ExecCommand(auth) in {"aws-iam-authenticator", "aws"}
    ensures p == Aws || p == ClientCert
  {
    var cmd := ExecCommand(auth);
    if cmd == "aws-iam-authenticator" || cmd == "aws" then Aws else ClientCert
  }

  /**
   * ClientConfig: `baseLoaded` says whether the REST settings for the
   * context could be loaded and `starting` is the kubeconfig document (None
   * when it could not be read). The context, its cluster and its auth-info
   * are looked up in that order, each with its own error; the server is
   * remapped; the REST settings take the effective address, the cluster's
   * CA and the auth-info's certificate, key and user name, falling back to
   * the auth-info's name when the user name is empty.
   */
  function ClientConfig(context: string, remapAddress: string, baseLoaded: bool, starting: Option<Config>)
    : (r: Result<KConfig, ConfigError>)
    ensures r.Success? ==> r.value.provider in {Aws, ClientCert}
    ensures r.Success? ==> r.value.remappedIp == remapAddress && r.value.port != []
    ensures r.Success? ==> baseLoaded && starting.Some? && context in starting.value.contexts
  {
    if !baseLoaded then Failure(BaseConfigFailed)
    else if starting.None? then Failure(StartingConfigFailed)
    else
      var config := starting.value;
      if context !in config.contexts then Failure(ContextNotFound)
      else
        var ctx := config.contexts[context];
        if ctx.cluster !in config.clusters then Failure(ClusterNotFound)
        else
          var cluster := config.clusters[ctx.cluster];
          var user := ctx.authInfo;
          if user !in config.authInfos then Failure(AuthInfoNotFound)
          else
            var authInfo := config.authInfos[user];
            var provider := Classify(authInfo);
            var remapped := Remap(cluster.server, remapAddress);
            if remapped.err.Some? then Failure(RemapFailed(remapped.err.value))
            else
              var username := if authInfo.username == "" then user else authInfo.username;
              Success(KConfig(provider, remapped.originalHost, remapAddress, remapped.port,
                RestConfig(remapped.address, cluster.certificateAuthorityData, cluster.certificateAuthority,
                  authInfo.clientCertificateData, authInfo.clientKeyData, username)))
  }

  // ---- properties ----

  /** The lookups fail in order: context, then cluster, then auth-info, then the server address. */
  lemma LookupErrorsInOrder(context: string, remapAddress: string, config: Config)
    ensures context !in config.contexts ==>
      ClientConfig(context, remapAddress, true, Some(config)) == Failure(ContextNotFound)
    ensures context in config.contexts && config.contexts[context].cluster !in config.clusters ==>
      ClientConfig(context, remapAddress, true, Some(config)) == Failure(ClusterNotFound)
    ensures (context in config.contexts && config.contexts[context].cluster in config.clusters
             && config.contexts[context].authInfo !in config.authInfos) ==>
      ClientConfig(context, remapAddress, true, Some(config)) == Failure(AuthInfoNotFound)
    ensures (context in config.contexts && config.contexts[context].cluster in config.clusters
             && config.contexts[context].authInfo in config.authInfos
             && AddressToSchemeHostPort(config.clusters[config.contexts[context].cluster].server).err.Some?) ==>
      ClientConfig(context, remapAddress, true, Some(config))
        == Failure(RemapFailed(AddressToSchemeHostPort(config.clusters[config.contexts[context].cluster].server).err.value))
  {
  }

  /**
   * On success the record carries the remap results, the configured target,
   * the cluster's CA data and file, the auth-info's certificate and key, and
   * the auth-info's user name or, when that is empty, the auth-info's name.
   */
  lemma ClientConfigFields(context: string, remapAddress: string, config: Config)
    requires ClientConfig(context, remapAddress, true, Some(config)).Success?
    ensures var k := ClientConfig(context, remapAddress, true, Some(config)).value;
      var ctx := config.contexts[context];
      var cluster := config.clusters[ctx.cluster];
      var auth := config.authInfos[ctx.authInfo];
      var remapped := Remap(cluster.server, remapAddress);
      && k.provider == Classify(auth)
      && k.originalIp == remapped.originalHost && k.port == remapped.port
      && k.remappedIp == remapAddress
      && k.rest.host == remapped.address
      && k.rest.caData == cluster.certificateAuthorityData && k.rest.caFile == cluster.certificateAuthority
      && k.rest.certData == auth.clientCertificateData && k.rest.keyData == auth.clientKeyData
      && k.rest.username == (if auth.username != "" then auth.username else ctx.authInfo)
  {
  }

  /**
   * A loopback server with a remap target yields a record whose host points
   * at the target on the original port and whose original IP is 127.0.0.1.
   */
  lemma LoopbackContextIsRemapped(context: string, remapAddress: string, config: Config)
    requires ClientConfig(context, remapAddress, true, Some(config)).Success?
    requires var server := config.clusters[config.contexts[context].cluster].server;
      remapAddress != [] && AddressToSchemeHostPort(server).host in RemapDomains
    ensures var k := ClientConfig(context, remapAddress, true, Some(config)).value;
      var p := AddressToSchemeHostPort(config.clusters[config.contexts[context].cluster].server);
      k.rest.host == p.scheme + "://" + remapAddress + ":" + p.port && k.originalIp == "127.0.0.1"
  {
    var server := config.clusters[config.contexts[context].cluster].server;
    RemapLoopback(server, remapAddress);
  }
}
