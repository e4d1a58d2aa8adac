/**
 * The records of the Kubernetes client library that the modelled code reads
 * and builds: a kubeconfig document (clusters, contexts and auth-infos keyed
 * by name) and the REST connection settings of one cluster.
 */
module KubeApi {
  import opened Wrappers

  /** Raw certificate and key material, never inspected by the modelled code. */
  type Bytes = seq<bv8>

  /** The apiVersion of a serialised kubeconfig document, the form a stored secret stands for. */
  const ApiVersion: string := "v1"

  datatype Cluster = Cluster(server: string, certificateAuthority: string, certificateAuthorityData: Bytes)

  datatype ExecConfig = ExecConfig(command: string)

  datatype AuthInfo = AuthInfo(
    exec: Option<ExecConfig>,
    clientCertificateData: Bytes,
    clientKeyData: Bytes,
    username: string,
    token: string)

  datatype Context = Context(cluster: string, authInfo: string)

  datatype Config = Config(
    apiVersion: string,
    clusters: map<string, Cluster>,
    contexts: map<string, Context>,
    currentContext: string,
    authInfos: map<string, AuthInfo>)

  /** The fields of rest.Config the modelled code fills in or reads. */
  datatype RestConfig = RestConfig(
    host: string,
    caData: Bytes,
    caFile: string,
    certData: Bytes,
    keyData: Bytes,
    username: string)

  /**
   * A document is self-contained when its current context exists and names
   * a cluster and an auth-info that exist.
   */
  predicate SelfContained(c: Config) {
    && c.currentContext in c.contexts
    && c.contexts[c.currentContext].cluster in c.clusters
    && c.contexts[c.currentContext].authInfo in c.authInfos
  }
}
