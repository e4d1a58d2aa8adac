/**
 * internal/kubeconfig/clientcert: the kubeconfig document written for a
 * context that authenticates with a client certificate.
 */
module ClientCert {
  import opened Wrappers
  import opened KubeApi

  /**
   * KubeConfig: one cluster and one context, both named after the context,
   * and one auth-info, named after the user, holding the certificate and key.
   * The Go function also returns an error value, which is always nil.
   */
  function KubeConfig(context: string, config: RestConfig): (r: Result<Config, string>)
    ensures r.Success?
    ensures r.value.clusters.Keys == {context} && r.value.contexts.Keys == {context}
    ensures r.value.authInfos.Keys == {config.username} && r.value.currentContext == context
  {
    Success(Config(
      ApiVersion,
      map[context := Cluster(config.host, "", config.caData)],
      map[context := Context(context, config.username)],
      context,
      map[config.username := AuthInfo(None, config.certData, config.keyData, "", "")]))
  }

  // ---- properties ----

  /**
   * The document is self-contained and its single cluster, context and
   * auth-info carry the server, CA data, user binding, certificate and key,
   * with no token and no exec block.
   */
  lemma ClientCertDocument(context: string, config: RestConfig)
    ensures var c := KubeConfig(context, config).value;
      && SelfContained(c)
      && c.clusters[context].server == config.host
      && c.clusters[context].certificateAuthorityData == config.caData
      && c.contexts[context] == Context(context, config.username)
      && c.authInfos[config.username].clientCertificateData == config.certData
      && c.authInfos[config.username].clientKeyData == config.keyData
      && c.authInfos[config.username].token == ""
      && c.authInfos[config.username].exec.None?
  {
  }
}
