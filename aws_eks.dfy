/**
 * internal/kubeconfig/aws/eks.go: the kubeconfig document written for an
 * EKS context (a bearer token instead of a certificate), the token request
 * and the settings of the STS client it goes through.
 */
module AwsEks {
  import opened Wrappers
  import opened Text
  import opened Helpers
  import opened KubeApi
  import opened AwsTypes

  const LocalstackDomain: string := "localhost.localstack.cloud"
  /** "http://localhost.localstack.cloud:4566", spelt out as scheme, domain and port. */
  const LocalstackEndpoint: string := "http" + "://" + LocalstackDomain + ":" + "4566"
  const LocalstackAccessToken: string := "test"
  const LocalstackSecretToken: string := "test"
  const DefaultRegion: string := "us-east-1"

  /**
   * The environment stsclient reads: AWS_ACCESS_KEY_ID, AWS_ENDPOINT,
   * LOCALSTACK_HOST, AWS_SECRET_ACCESS_KEY and AWS_SESSION_TOKEN (an unset
   * variable reads as "").
   */
  datatype Env = Env(accessKey: string, endpoint: string, localstackHost: string, secretKey: string, session: string)

  /** What the STS client is built from: region, endpoint override and static credentials. */
  datatype StsSettings = StsSettings(region: string, endpoint: string, accessKey: string, secretKey: string, session: string)

  datatype StsError = LocalstackHostInvalid(cause: AddressError) | HostInvalid(cause: AddressError)

  datatype TokenError = StsClientFailed(sts: StsError) | PresignFailed

  /**
   * Presigning GetCallerIdentity with the given settings for the named
   * cluster, then encoding it: the AWS SDK, the clock and base64/JSON
   * encoding are not modelled, so this is a parameter (None is a failure).
   */
  type Presigner = (StsSettings, string) -> Option<string>

  /**
   * The defaulting in stsclient: region "us-east-1" when empty; LOCALSTACK_HOST
   * defaults to the localstack endpoint; both it and the cluster host must
   * split into scheme, host and port; when the two hosts are equal, an empty
   * endpoint, access key or secret key takes its localstack default.
   */
  function StsClientSettings(region: string, host: string, env: Env): (r: Result<StsSettings, StsError>)
    ensures r.Success? ==> r.value.region == (if region == "" then DefaultRegion else region)
    ensures r.Success? ==> r.value.session == env.session
  {
    var region' := if region == "" then DefaultRegion else region;
    var localstackAddress := if env.localstackHost == "" then LocalstackEndpoint else env.localstackHost;
    var localstack := AddressToSchemeHostPort(localstackAddress);
    if localstack.err.Some? then Failure(LocalstackHostInvalid(localstack.err.value))
    else
      var cluster := AddressToSchemeHostPort(host);
      if cluster.err.Some? then Failure(HostInvalid(cluster.err.value))
      else if cluster.host == localstack.host then
        Success(StsSettings(region',
          if env.endpoint == "" then LocalstackEndpoint else env.endpoint,
          if env.accessKey == "" then LocalstackAccessToken else env.accessKey,
          if env.secretKey == "" then LocalstackSecretToken else env.secretKey,
          env.session))
      else Success(StsSettings(region', env.endpoint, env.accessKey, env.secretKey, env.session))
  }

  /**
   * getToken: the context name is read as an ARN (Go indexes its sixth
   * colon-field, so fewer fields would panic), its region configures the STS
   * client, and the presigned request for its resource name is the token.
   */
  function GetToken(arn: string, host: string, env: Env, presign: Presigner): (r: Result<string, TokenError>)
    requires HasSixFields(arn)
    ensures var s := StsClientSettings(NewArn(arn).region, host, env);
      && (r.Success? <==> s.Success? && presign(s.value, NewArn(arn).resourceName).Some?)
      && (r.Success? ==> r.value == presign(s.value, NewArn(arn).resourceName).value)
      && (s.Failure? ==> r == Failure(StsClientFailed(s.error)))
  {
    var a := NewArn(arn);
    match StsClientSettings(a.region, host, env)
    case Failure(e) => Failure(StsClientFailed(e))
    case Success(settings) =>
      match presign(settings, a.resourceName)
      case None => Failure(PresignFailed)
      case Some(token) => Success(token)
  }

  /**
   * KubeConfig: one cluster and one context named after the context, and one
   * auth-info named after the user holding only the token; a token failure
   * is returned as the error.
   */
  function KubeConfig(context: string, config: RestConfig, env: Env, presign: Presigner): (r: Result<Config, TokenError>)
    requires HasSixFields(context)
    ensures r.Failure? <==> GetToken(context, config.host, env, presign).Failure?
    ensures r.Failure? ==> r.error == GetToken(context, config.host, env, presign).error
    ensures r.Success? ==> r.value.clusters.Keys == {context} && r.value.contexts.Keys == {context}
    ensures r.Success? ==> r.value.authInfos.Keys == {config.username} && r.value.currentContext == context
  {
    match GetToken(context, config.host, env, presign)
    case Failure(e) => Failure(e)
    case Success(token) =>
      Success(Config(
        ApiVersion,
        map[context := Cluster(config.host, "", config.caData)],
        map[context := Context(context, config.username)],
        context,
        map[config.username := AuthInfo(None, [], [], "", token)]))
  }

  // ---- properties ----

  /**
   * The document is self-contained; its cluster carries the server and CA
   * data, its context binds the cluster to the user, and its auth-info holds
   * the token and no certificate, key or exec block.
   */
  lemma AwsDocument(context: string, config: RestConfig, env: Env, presign: Presigner)
    requires HasSixFields(context)
    requires KubeConfig(context, config, env, presign).Success?
    ensures var c := KubeConfig(context, config, env, presign).value;
      && SelfContained(c)
      && c.clusters[context].server == config.host
      && c.clusters[context].certificateAuthorityData == config.caData
      && c.contexts[context] == Context(context, config.username)
      && c.authInfos[config.username].token == GetToken(context, config.host, env, presign).value
      && c.authInfos[config.username].clientCertificateData == []
      && c.authInfos[config.username].clientKeyData == []
      && c.authInfos[config.username].exec.None?
  {
  }

  /**
   * A server or LOCALSTACK_HOST that does not split into host and port stops
   * the client, LOCALSTACK_HOST first; when both split, the client is built.
   */
  lemma StsParseErrors(region: string, host: string, env: Env)
    ensures var ls := if env.localstackHost == "" then LocalstackEndpoint else env.localstackHost;
      && (AddressToSchemeHostPort(ls).err.Some? ==>
            StsClientSettings(region, host, env) == Failure(LocalstackHostInvalid(AddressToSchemeHostPort(ls).err.value)))
      && (AddressToSchemeHostPort(ls).err.None? && AddressToSchemeHostPort(host).err.Some? ==>
            StsClientSettings(region, host, env) == Failure(HostInvalid(AddressToSchemeHostPort(host).err.value)))
      && (AddressToSchemeHostPort(ls).err.None? && AddressToSchemeHostPort(host).err.None? ==>
            StsClientSettings(region, host, env).Success?)
  {
  }

  /**
   * When the server's host is the localstack host, each of endpoint, access
   * key and secret key takes its localstack default exactly when unset;
   * otherwise all three are passed through.
   */
  lemma LocalstackCredentials(region: string, host: string, env: Env)
    requires StsClientSettings(region, host, env).Success?
    ensures var s := StsClientSettings(region, host, env).value;
      var ls := if env.localstackHost == "" then LocalstackEndpoint else env.localstackHost;
      if AddressToSchemeHostPort(host).host == AddressToSchemeHostPort(ls).host then
        && s.endpoint == (if env.endpoint == "" then LocalstackEndpoint else env.endpoint)
        && s.accessKey == (if env.accessKey == "" then LocalstackAccessToken else env.accessKey)
        && s.secretKey == (if env.secretKey == "" then LocalstackSecretToken else env.secretKey)
      else
        s.endpoint == env.endpoint && s.accessKey == env.accessKey && s.secretKey == env.secretKey
  {
  }

  /**
   * With LOCALSTACK_HOST unset, a server on localhost.localstack.cloud gets
   * the localstack endpoint and "test" credentials when none are set.
   */
  lemma DefaultLocalstack(region: string, host: string, env: Env)
    requires env.localstackHost == "" && env.endpoint == "" && env.accessKey == "" && env.secretKey == ""
    requires AddressToSchemeHostPort(host).err.None? && AddressToSchemeHostPort(host).host == LocalstackDomain
    ensures StsClientSettings(region, host, env)
         == Success(StsSettings(if region == "" then DefaultRegion else region,
                                LocalstackEndpoint, LocalstackAccessToken, LocalstackSecretToken, env.session))
  {
    LocalstackHostIsLowerDotted(LocalstackDomain);
    ExampleRoundTrip("http", LocalstackDomain, "4566");
  }
}
