/**
 * internal/kubeconfig/reconcile.go: one pass of the operator over the
 * contexts of a kubeconfig file. Each allowed context gets a namespace and a
 * secret holding its kubeconfig document, a status entry, and, when its
 * server was an IP address that the pass remaps, firewall rules.
 *
 * The Kubernetes API server is the store of a Manager: the namespaces and
 * secrets it holds, and a ghost log of the create calls the pass issues.
 * Everything else the pass consults (the kubeconfig file, the Go map
 * iteration order, the outcome of each API call, the token presigner, the
 * connection check) is a World given to it.
 */
module Reconcile {
  import opened Wrappers
  import opened Net
  import KubeApi
  import opened Types
  import opened Firewall
  import opened ClientConfiguration
  import ClientCert
  import AwsEks
  import opened AwsTypes
  import opened Naming

  datatype ClusterSpec = ClusterSpec(
    additionalDomains: seq<string>,
    firewallFormat: string,
    kubeConfigPath: string,
    namespacePrefix: string,
    remapToIp: string,
    suspend: bool)

  datatype ClusterStatusEntry = ClusterStatusEntry(ready: bool, endpoint: string, kubeConfig: string)

  datatype Status = Status(
    clusterStatus: map<string, ClusterStatusEntry>,
    firewallRules: seq<string>,
    deletionRules: seq<string>)

  const EmptyStatus: Status := Status(map[], [], [])

  /** A secret: its namespace, its name, and its data, the kubeconfig document under "value". */
  datatype Secret = Secret(namespace: string, name: string, data: map<string, KubeApi.Config>)

  /** A create call issued to the API server. */
  datatype Call = CreateNamespace(name: string) | CreateSecret(namespace: string, name: string)

  /** What the API server holds, and the create calls issued so far. */
  datatype Store = Store(namespaces: seq<string>, secrets: seq<Secret>, calls: seq<Call>)

  datatype State = State(store: Store, status: Status)

  datatype ReconcileError = ListContextsFailed | ListNamespacesFailed

  /** What ReconcileKubeconfig returns: the status (nil in Go when absent) and the error. */
  datatype Outcome = Outcome(status: Option<Status>, err: Option<ReconcileError>)

  /**
   * Everything outside the store: the kubeconfig document (None when it
   * cannot be read), the order in which Go's map iteration visits its
   * contexts, whether the per-context REST settings load, whether each API
   * call succeeds, the AWS environment and presigner, and the connection
   * check that clusterAvailable runs against a stored secret.
   */
  datatype World = World(
    starting: Option<KubeApi.Config>,
    contextOrder: seq<string>,
    baseLoads: string -> bool,
    namespaceListOk: bool,
    namespaceCreateOk: string -> bool,
    secretListOk: string -> bool,
    secretCreateOk: (string, string) -> bool,
    aws: AwsEks.Env,
    presign: AwsEks.Presigner,
    connects: (string, string) -> bool)

  // ---- what the Go code relies on without checking ----

  /** `order` visits every key of the map exactly once. */
  predicate Enumerates(order: seq<string>, keys: set<string>) {
    && (forall n :: n in order ==> n in keys)
    && (forall n :: n in keys ==> n in order)
    && (forall i, j :: 0 <= i < j < |order| ==> order[i] != order[j])
  }

  /** Every context names an existing cluster: listContexts reads its server through a pointer. */
  predicate ClustersResolve(config: KubeApi.Config) {
    forall n :: n in config.contexts ==> config.contexts[n].cluster in config.clusters
  }

  /** A readable document is visited in an order that enumerates its contexts, each naming an existing cluster. */
  predicate Resolves(world: World) {
    world.starting.Some? ==>
      && Enumerates(world.contextOrder, world.starting.value.contexts.Keys)
      && ClustersResolve(world.starting.value)
  }

  /**
   * Every context whose auth-info runs an AWS authenticator is named after
   * its cluster, and that name is an ARN. This is a sufficient condition
   * for WellFormed, not part of it.
   */
  predicate AwsContextsNamedByArn(config: KubeApi.Config) {
    forall n :: n in config.contexts ==>
      (config.contexts[n].authInfo in config.authInfos
       && Classify(config.authInfos[config.contexts[n].authInfo]) == Aws) ==>
      n == config.contexts[n].cluster && HasSixFields(n)
  }

  // ---- listContexts ----

  function ContextOf(config: KubeApi.Config, name: string): (c: Context)
    requires name in config.contexts
    ensures c.name == name
  {
    Context(name, config.contexts[name].authInfo, config.contexts[name].cluster)
  }

  /** The server of a listed context's cluster. */
  function ServerOf(config: KubeApi.Config, name: string): string
    requires name in config.contexts && config.contexts[name].cluster in config.clusters
  {
    config.clusters[config.contexts[name].cluster].server
  }

  /** The contexts visited in `order` whose cluster's server the allowed domains accept. */
  function Allowed(config: KubeApi.Config, order: seq<string>, allowed: seq<string>): (r: seq<Context>)
    requires forall n :: n in order ==> n in config.contexts && config.contexts[n].cluster in config.clusters
    ensures |r| <= |order|
  {
    if order == [] then []
    else
      var last := order[|order| - 1];
      var rest := Allowed(config, order[..|order| - 1], allowed);
      if Has(allowed, ServerOf(config, last)) then rest + [ContextOf(config, last)] else rest
  }

  /** Allowed over one more name of the order: that name's context is appended when its server is allowed. */
  lemma AllowedExtend(config: KubeApi.Config, order: seq<string>, i: nat, allowed: seq<string>)
    requires i < |order|
    requires forall n :: n in order ==> n in config.contexts && config.contexts[n].cluster in config.clusters
    ensures forall n :: n in order[..i + 1] ==> n in config.contexts && config.contexts[n].cluster in config.clusters
    ensures Allowed(config, order[..i + 1], allowed) ==
      var rest := Allowed(config, order[..i], allowed);
      if Has(allowed, ServerOf(config, order[i])) then rest + [ContextOf(config, order[i])] else rest
  {
    assert order[..i + 1][..i] == order[..i];
  }

  // ---- one context ----

  /**
   * The preconditions the AWS branch of the loop needs when the connection
   * record of this context is an AWS one: the cluster name is an ARN (the
   * token request parses it before anything can fail), and, when the AWS
   * document is built, the context is named after its cluster (the document
   * is keyed by the cluster name but its server is read by the context name).
   */
  predicate AwsReady(ctx: Context, spec: ClusterSpec, world: World) {
    var k := ClientConfig(ctx.name, spec.remapToIp, world.baseLoads(ctx.name), world.starting);
    k.Success? ==> AwsBranchReady(ctx, k.value, world)
  }

  /** AwsReady once the connection record `k` is known. */
  predicate AwsBranchReady(ctx: Context, k: KConfig, world: World) {
    k.provider == Aws ==>
      HasSixFields(ctx.cluster) && (Details(ctx, k, world).Success? ==> ctx.name == ctx.cluster)
  }

  datatype DetailsError = TokenFailed(cause: AwsEks.TokenError) | ProviderUnsupported

  /** The provider switch: the document aws.KubeConfig or clientcert.KubeConfig builds for the context. */
  function Details(ctx: Context, k: KConfig, world: World): (r: Result<KubeApi.Config, DetailsError>)
    requires k.provider == Aws ==> HasSixFields(ctx.cluster)
    ensures r.Success? ==> k.provider in {Aws, ClientCert}
    ensures r.Success? ==> r.value.clusters.Keys == {if k.provider == Aws then ctx.cluster else ctx.name}
    ensures r.Success? ==> r.value.clusters[if k.provider == Aws then ctx.cluster else ctx.name].server == k.rest.host
    ensures k.provider == ClientCert ==> r.Success?
  {
    match k.provider
    case Aws =>
      (match AwsEks.KubeConfig(ctx.cluster, k.rest, world.aws, world.presign)
       case Success(c) => Success(c)
       case Failure(e) => Failure(TokenFailed(e)))
    case ClientCert => Success(ClientCert.KubeConfig(ctx.name, k.rest).value)
    case _ => Failure(ProviderUnsupported)
  }

  /**
   * createNamespaceForCluster: nothing to do when the snapshot lists the
   * name; otherwise a create call, which the API server refuses for a name
   * it already holds.
   */
  function EnsureNamespace(store: Store, name: string, snapshot: seq<string>, world: World): (r: (Store, bool))
    ensures r.0.secrets == store.secrets
    ensures name in snapshot ==> r == (store, true)
    ensures name !in snapshot ==> r.0.calls == store.calls + [CreateNamespace(name)]
    ensures r.0.namespaces == (if r.1 && name !in snapshot then store.namespaces + [name] else store.namespaces)
    ensures r.1 && name !in snapshot ==> name !in store.namespaces
  {
    if name in snapshot then (store, true)
    else
      var calls := store.calls + [CreateNamespace(name)];
      if name !in store.namespaces && world.namespaceCreateOk(name) then
        (store.(namespaces := store.namespaces + [name], calls := calls), true)
      else (store.(calls := calls), false)
  }

  /** The name of the secret for a (sanitised) cluster name. */
  function SecretName(clusterName: string): (r: string)
    ensures |r| == |clusterName| + 11 && r[..|clusterName|] == clusterName
  {
    clusterName + "-kubeconfig"
  }

  /** Some secret in any namespace has this name. */
  predicate HasSecretNamed(secrets: seq<Secret>, name: string) {
    exists i :: 0 <= i < |secrets| && secrets[i].name == name
  }

  /**
   * createSecretForCluster: list the secrets of all namespaces; when none
   * has the name, create it in `namespace` with the document under "value".
   */
  function EnsureSecret(store: Store, namespace: string, clusterName: string, details: KubeApi.Config, world: World)
    : (r: (Store, bool))
    ensures r.0.namespaces == store.namespaces
    ensures !world.secretListOk(clusterName) ==> r == (store, false)
    ensures HasSecretNamed(store.secrets, SecretName(clusterName)) ==> r.0 == store
    ensures r.1 <==> world.secretListOk(clusterName)
                     && (HasSecretNamed(store.secrets, SecretName(clusterName)) || r.0.secrets != store.secrets)
    ensures world.secretListOk(clusterName) && !HasSecretNamed(store.secrets, SecretName(clusterName)) ==>
      r.0.calls == store.calls + [CreateSecret(namespace, SecretName(clusterName))]
    ensures r.0.secrets == store.secrets
         || (r.0.secrets == store.secrets + [Secret(namespace, SecretName(clusterName), map["value" := details])]
             && !HasSecretNamed(store.secrets, SecretName(clusterName)))
  {
    if !world.secretListOk(clusterName) then (store, false)
    else
      var secretName := SecretName(clusterName);
      if HasSecretNamed(store.secrets, secretName) then (store, true)
      else
        var calls := store.calls + [CreateSecret(namespace, secretName)];
        if world.secretCreateOk(namespace, secretName) then
          (store.(secrets := store.secrets + [Secret(namespace, secretName, map["value" := details])], calls := calls), true)
        else (store.(calls := calls), false)
  }

  /**
   * clusterAvailable: the secret must be found in that namespace under
   * that name; reading its document and listing namespaces through it is
   * the connection check.
   */
  predicate ClusterAvailable(secrets: seq<Secret>, namespace: string, secretName: string, world: World) {
    && (exists i :: 0 <= i < |secrets| && secrets[i].namespace == namespace && secrets[i].name == secretName)
    && world.connects(namespace, secretName)
  }

  /** Whether the pass writes firewall rules for this record: its server was an IP other than the remap target. */
  predicate NeedsRules(k: KConfig) {
    ParsesAsIp(k.originalIp) && k.originalIp != k.remappedIp
  }

  /**
   * The status after one context is stored: its entry under the context
   * name (readiness is probed under the unsanitised context name), then,
   * when rules are needed, an add rule if the cluster is not ready and a
   * delete rule always.
   */
  function Record(status: Status, secrets: seq<Secret>, spec: ClusterSpec, ctx: Context, k: KConfig,
                  details: KubeApi.Config, namespace: string, world: World): (r: Status)
    requires ctx.name in details.clusters
    ensures r.clusterStatus.Keys == status.clusterStatus.Keys + {ctx.name}
  {
    var probeName := ctx.name + "-kubeconfig";
    var ready := ClusterAvailable(secrets, namespace, probeName, world);
    var entry := ClusterStatusEntry(ready, details.clusters[ctx.name].server, probeName);
    var next := status.(clusterStatus := status.clusterStatus[ctx.name := entry]);
    if NeedsRules(k) then
      var add := if ready then [] else [MakeFirewallRule(spec.firewallFormat, k.originalIp, k.remappedIp, k.port)];
      var delete := MakeDeleteFirewallRule(spec.firewallFormat, k.originalIp, k.remappedIp, k.port);
      next.(firewallRules := next.firewallRules + add, deletionRules := next.deletionRules + [delete])
    else next
  }

  /** The body of the loop for one context; every failure skips the rest of it. */
  function Step(st: State, spec: ClusterSpec, world: World, snapshot: seq<string>, ctx: Context): State
    requires AwsReady(ctx, spec, world)
  {
    var k := ClientConfig(ctx.name, spec.remapToIp, world.baseLoads(ctx.name), world.starting);
    if k.Failure? then st else Provide(st, spec, world, snapshot, ctx, k.value)
  }

  /** The loop body once the connection record `k` is known: build the document. */
  function Provide(st: State, spec: ClusterSpec, world: World, snapshot: seq<string>, ctx: Context, k: KConfig): State
    requires AwsBranchReady(ctx, k, world)
  {
    match Details(ctx, k, world)
    case Failure(_) => st
    case Success(details) => Persist(st, spec, world, snapshot, ctx, k, details)
  }

  /** The loop body once the document is built: namespace, secret, then the status entry and rules. */
  function Persist(st: State, spec: ClusterSpec, world: World, snapshot: seq<string>, ctx: Context, k: KConfig,
                   details: KubeApi.Config): State
    requires ctx.name in details.clusters
  {
    var name := Sanitize(ctx.name);
    var namespace := NamespaceName(spec.namespacePrefix, name);
    var (store1, namespaceOk) := EnsureNamespace(st.store, namespace, snapshot, world);
    if !namespaceOk then st.(store := store1)
    else
      var (store2, secretOk) := EnsureSecret(store1, namespace, name, details, world);
      if !secretOk then st.(store := store2)
      else State(store2, Record(st.status, store2.secrets, spec, ctx, k, details, namespace, world))
  }

  /** The loop over the listed contexts, in order. */
  function Run(st: State, spec: ClusterSpec, world: World, snapshot: seq<string>, contexts: seq<Context>): State
    requires forall i :: 0 <= i < |contexts| ==> AwsReady(contexts[i], spec, world)
  {
    if contexts == [] then st
    else
      var last := |contexts| - 1;
      Step(Run(st, spec, world, snapshot, contexts[..last]), spec, world, snapshot, contexts[last])
  }

  /** The contexts the pass visits. */
  function Listed(spec: ClusterSpec, world: World): seq<Context>
    requires Resolves(world) && world.starting.Some?
  {
    Allowed(world.starting.value, world.contextOrder, DefaultAllowedDomains + spec.additionalDomains)
  }

  /**
   * What the pass needs of its world: the document resolves, and every
   * context the pass visits meets the needs of the AWS branch (the AWS
   * document is keyed by the cluster name but read back by the context
   * name, and the ARN parser indexes six colon-separated fields). Contexts
   * the allow-list drops are never looked at.
   */
  predicate WellFormed(spec: ClusterSpec, world: World) {
    && Resolves(world)
    && (world.starting.Some? ==>
          forall i :: 0 <= i < |Listed(spec, world)| ==> AwsReady(Listed(spec, world)[i], spec, world))
  }

  /** Every listed context is a context of the document, as listContexts builds it. */
  lemma {:induction false} AllowedAreContexts(config: KubeApi.Config, order: seq<string>, allowed: seq<string>)
    requires forall n :: n in order ==> n in config.contexts && config.contexts[n].cluster in config.clusters
    ensures forall c :: c in Allowed(config, order, allowed) ==>
      c.name in order && c == ContextOf(config, c.name) && Has(allowed, ServerOf(config, c.name))
  {
    if order != [] {
      var init := order[..|order| - 1];
      assert forall n :: n in init ==> n in order;
      AllowedAreContexts(config, init, allowed);
    }
  }

  /** A document whose AWS contexts are all named by their ARN cluster is well formed for every spec. */
  lemma ListedAreReady(spec: ClusterSpec, world: World)
    requires Resolves(world) && world.starting.Some? && AwsContextsNamedByArn(world.starting.value)
    ensures WellFormed(spec, world)
  {
    var config := world.starting.value;
    var contexts := Listed(spec, world);
    AllowedAreContexts(config, world.contextOrder, DefaultAllowedDomains + spec.additionalDomains);
    forall i | 0 <= i < |contexts|
      ensures AwsReady(contexts[i], spec, world)
    {
      var ctx := contexts[i];
      assert ctx in contexts;
      var k := ClientConfig(ctx.name, spec.remapToIp, world.baseLoads(ctx.name), world.starting);
      if k.Success? && k.value.provider == Aws {
        ClientConfigFields(ctx.name, spec.remapToIp, config);
      }
    }
  }

  /**
   * ReconcileKubeconfig: the final status and store. A document that cannot
   * be read gives an empty status and an error; a failed namespace listing
   * gives no status and an error; otherwise the loop runs against the
   * namespaces held at the start.
   */
  function Pass(store: Store, spec: ClusterSpec, world: World): (r: (Outcome, Store))
    requires WellFormed(spec, world)
    ensures r.0.err.Some? ==> r.1 == store
    ensures r.0.status.None? <==> r.0.err == Some(ListNamespacesFailed)
  {
    if world.starting.None? then (Outcome(Some(EmptyStatus), Some(ListContextsFailed)), store)
    else if !world.namespaceListOk then (Outcome(None, Some(ListNamespacesFailed)), store)
    else
      var st := Run(State(store, EmptyStatus), spec, world, store.namespaces, Listed(spec, world));
      (Outcome(Some(st.status), None), st.store)
  }

  /**
   * The operator's view of one Cluster: its spec and the API server's
   * store, which the pass changes in place.
   */
  class Manager {
    const spec: ClusterSpec
    var namespaces: seq<string>
    var secrets: seq<Secret>
    ghost var calls: seq<Call>

    ghost function Contents(): Store
      reads this
    {
      Store(namespaces, secrets, calls)
    }

    constructor (spec: ClusterSpec, namespaces: seq<string>, secrets: seq<Secret>)
      ensures this.spec == spec && Contents() == Store(namespaces, secrets, [])
    {
      this.spec := spec;
      this.namespaces := namespaces;
      this.secrets := secrets;
      this.calls := [];
    }

    /** listContexts: the allowed contexts in iteration order, or false when the document cannot be read. */
    method ListContexts(world: World, allowed: seq<string>) returns (contexts: seq<Context>, ok: bool)
      requires Resolves(world)
      ensures ok <==> world.starting.Some?
      ensures ok ==> contexts == Allowed(world.starting.value, world.contextOrder, allowed)
      ensures !ok ==> contexts == []
    {
      if world.starting.None? {
        return [], false;
      }
      var config := world.starting.value;
      var order := world.contextOrder;
      contexts := [];
      var i := 0;
      while i < |order|
        invariant 0 <= i <= |order|
        invariant contexts == Allowed(config, order[..i], allowed)
      {
        var name := order[i];
        var cluster := config.clusters[config.contexts[name].cluster];
        AllowedExtend(config, order, i, allowed);
        if Has(allowed, cluster.server) {
          contexts := contexts + [ContextOf(config, name)];
        }
        i := i + 1;
      }
      assert order[..|order|] == order;
      return contexts, true;
    }

    /** createNamespaceForCluster, against the namespaces listed before the loop. */
    method CreateNamespaceForCluster(name: string, snapshot: seq<string>, world: World) returns (ok: bool)
      modifies this
      ensures (Contents(), ok) == EnsureNamespace(old(Contents()), name, snapshot, world)
    {
      var found := false;
      var i := 0;
      while i < |snapshot| && !found
        invariant 0 <= i <= |snapshot|
        invariant found <==> name in snapshot[..i]
      {
        assert snapshot[..i + 1] == snapshot[..i] + [snapshot[i]];
        if snapshot[i] == name {
          found := true;
        }
        i := i + 1;
      }
      assert name in snapshot[..i] ==> name in snapshot;
      assert i == |snapshot| ==> snapshot[..i] == snapshot;
      if found {
        return true;
      }
      calls := calls + [CreateNamespace(name)];
      if name !in namespaces && world.namespaceCreateOk(name) {
        namespaces := namespaces + [name];
        ok := true;
      } else {
        ok := false;
      }
    }

    /** createSecretForCluster: a secret of that name in any namespace counts as present. */
    method CreateSecretForCluster(namespace: string, clusterName: string, details: KubeApi.Config, world: World)
      returns (ok: bool)
      modifies this
      ensures (Contents(), ok) == EnsureSecret(old(Contents()), namespace, clusterName, details, world)
    {
      if !world.secretListOk(clusterName) {
        return false;
      }
      var items := secrets;
      var secretName := SecretName(clusterName);
      var found := false;
      var i := 0;
      while i < |items| && !found
        invariant 0 <= i <= |items|
        invariant found <==> exists j :: 0 <= j < i && items[j].name == secretName
      {
        if items[i].name == secretName {
          found := true;
        }
        i := i + 1;
      }
      if !found {
        calls := calls + [CreateSecret(namespace, secretName)];
        if world.secretCreateOk(namespace, secretName) {
          secrets := secrets + [Secret(namespace, secretName, map["value" := details])];
          ok := true;
        } else {
          ok := false;
        }
      } else {
        ok := true;
      }
    }

    /** The loop body for one context. */
    method ReconcileContext(ctx: Context, snapshot: seq<string>, world: World, status: Status) returns (next: Status)
      requires AwsReady(ctx, spec, world)
      modifies this
      ensures State(Contents(), next) == Step(State(old(Contents()), status), spec, world, snapshot, ctx)
    {
      var kr := ClientConfig(ctx.name, spec.remapToIp, world.baseLoads(ctx.name), world.starting);
      if kr.Failure? {
        return status;
      }
      next := ProvideContext(ctx, kr.value, snapshot, world, status);
    }

    method ProvideContext(ctx: Context, k: KConfig, snapshot: seq<string>, world: World, status: Status)
      returns (next: Status)
      requires AwsBranchReady(ctx, k, world)
      modifies this
      ensures State(Contents(), next) == Provide(State(old(Contents()), status), spec, world, snapshot, ctx, k)
    {
      var dr := Details(ctx, k, world);
      if dr.Failure? {
        return status;
      }
      next := PersistContext(ctx, k, dr.value, snapshot, world, status);
    }

    method PersistContext(ctx: Context, k: KConfig, details: KubeApi.Config, snapshot: seq<string>, world: World,
                          status: Status) returns (next: Status)
      requires ctx.name in details.clusters
      modifies this
      ensures State(Contents(), next) == Persist(State(old(Contents()), status), spec, world, snapshot, ctx, k, details)
    {
      var name := Sanitize(ctx.name);
      var namespace := NamespaceName(spec.namespacePrefix, name);
      var ok := CreateNamespaceForCluster(namespace, snapshot, world);
      if !ok {
        return status;
      }
      ok := CreateSecretForCluster(namespace, name, details, world);
      if !ok {
        return status;
      }
      next := Record(status, secrets, spec, ctx, k, details, namespace, world);
    }

    /** The loop of ReconcileKubeconfig over the listed contexts, against the namespace snapshot. */
    method RunContexts(contexts: seq<Context>, snapshot: seq<string>, world: World) returns (status: Status)
      requires forall i :: 0 <= i < |contexts| ==> AwsReady(contexts[i], spec, world)
      modifies this
      ensures State(Contents(), status) == Run(State(old(Contents()), EmptyStatus), spec, world, snapshot, contexts)
    {
      status := EmptyStatus;
      var i := 0;
      while i < |contexts|
        invariant 0 <= i <= |contexts|
        invariant State(Contents(), status) == Run(State(old(Contents()), EmptyStatus), spec, world, snapshot, contexts[..i])
      {
        assert contexts[..i + 1][..i] == contexts[..i];
        status := ReconcileContext(contexts[i], snapshot, world, status);
        i := i + 1;
      }
      assert contexts[..|contexts|] == contexts;
    }

    /** ReconcileKubeconfig: one pass over the allowed contexts. */
    method ReconcileKubeconfig(world: World) returns (status: Option<Status>, err: Option<ReconcileError>)
      requires WellFormed(spec, world)
      modifies this
      ensures (Outcome(status, err), Contents()) == Pass(old(Contents()), spec, world)
    {
      var current := EmptyStatus;
      var allowed := NewAllowedDomains(spec.additionalDomains);
      var contexts, listed := ListContexts(world, allowed);
      if !listed {
        return Some(current), Some(ListContextsFailed);
      }
      if !world.namespaceListOk {
        return None, Some(ListNamespacesFailed);
      }
      var snapshot := namespaces;
      assert contexts == Listed(spec, world);
      current := RunContexts(contexts, snapshot, world);
      return Some(current), None;
    }
  }
}
