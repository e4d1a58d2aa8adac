/**
 * What one reconcile pass guarantees: the store only grows, every status
 * entry is backed by a namespace and a secret and is named after its
 * context, there are never more add rules than delete rules, a store that
 * already holds everything sees no create call, and the consequences of
 * probing readiness under the unsanitised name and of creating namespaces
 * against a snapshot taken before the loop.
 */
module ReconcileProperties {
  import opened Wrappers
  import opened Net
  import KubeApi
  import opened Types
  import opened Firewall
  import opened ClientConfiguration
  import opened Hostname
  import opened Naming
  import opened Reconcile

  // ---- listContexts ----

  /** A context is listed exactly when the allowed domains accept its cluster's server. */
  lemma ListedExactly(config: KubeApi.Config, order: seq<string>, allowed: seq<string>)
    requires forall n :: n in order ==> n in config.contexts && config.contexts[n].cluster in config.clusters
    ensures forall n :: n in order ==>
      (ContextOf(config, n) in Allowed(config, order, allowed) <==> Has(allowed, ServerOf(config, n)))
  {
    AllowedAreContexts(config, order, allowed);
    AllowedComplete(config, order, allowed);
  }

  lemma {:induction false} AllowedComplete(config: KubeApi.Config, order: seq<string>, allowed: seq<string>)
    requires forall n :: n in order ==> n in config.contexts && config.contexts[n].cluster in config.clusters
    ensures forall n :: n in order && Has(allowed, ServerOf(config, n)) ==>
      ContextOf(config, n) in Allowed(config, order, allowed)
  {
    if order != [] {
      var init := order[..|order| - 1];
      assert forall n :: n in init ==> n in order;
      AllowedComplete(config, init, allowed);
      assert order == init + [order[|order| - 1]];
    }
  }

  // ---- the store only grows ----

  predicate Grows(a: Store, b: Store) {
    a.namespaces <= b.namespaces && a.secrets <= b.secrets && a.calls <= b.calls
  }

  lemma PersistGrows(st: State, spec: ClusterSpec, world: World, snapshot: seq<string>, ctx: Context, k: KConfig,
                     details: KubeApi.Config)
    requires ctx.name in details.clusters
    ensures Grows(st.store, Persist(st, spec, world, snapshot, ctx, k, details).store)
  {
    var name := Sanitize(ctx.name);
    var namespace := NamespaceName(spec.namespacePrefix, name);
    var (store1, namespaceOk) := EnsureNamespace(st.store, namespace, snapshot, world);
    assert Grows(st.store, store1);
    if namespaceOk {
      var (store2, secretOk) := EnsureSecret(store1, namespace, name, details, world);
      assert Grows(store1, store2);
    }
  }

  lemma StepGrows(st: State, spec: ClusterSpec, world: World, snapshot: seq<string>, ctx: Context)
    requires AwsReady(ctx, spec, world)
    ensures Grows(st.store, Step(st, spec, world, snapshot, ctx).store)
  {
    var k := ClientConfig(ctx.name, spec.remapToIp, world.baseLoads(ctx.name), world.starting);
    if k.Success? {
      var d := Details(ctx, k.value, world);
      if d.Success? {
        PersistGrows(st, spec, world, snapshot, ctx, k.value, d.value);
      }
    }
  }

  /** A pass never removes a namespace, a secret or a logged call: each only gains entries at its end. */
  lemma {:induction false} RunGrows(st: State, spec: ClusterSpec, world: World, snapshot: seq<string>, contexts: seq<Context>)
    requires forall i :: 0 <= i < |contexts| ==> AwsReady(contexts[i], spec, world)
    ensures Grows(st.store, Run(st, spec, world, snapshot, contexts).store)
  {
    if contexts != [] {
      var init := contexts[..|contexts| - 1];
      RunGrows(st, spec, world, snapshot, init);
      var mid := Run(st, spec, world, snapshot, init);
      StepGrows(mid, spec, world, snapshot, contexts[|contexts| - 1]);
    }
  }

  // ---- status entries ----

  /** Every entry names its kubeconfig after its key, and there are no more add rules than delete rules. */
  predicate StatusShaped(status: Status) {
    && (forall n :: n in status.clusterStatus ==> status.clusterStatus[n].kubeConfig == n + "-kubeconfig")
    && |status.firewallRules| <= |status.deletionRules|
  }

  lemma PersistShaped(st: State, spec: ClusterSpec, world: World, snapshot: seq<string>, ctx: Context, k: KConfig,
                      details: KubeApi.Config)
    requires ctx.name in details.clusters && StatusShaped(st.status)
    ensures StatusShaped(Persist(st, spec, world, snapshot, ctx, k, details).status)
  {
  }

  lemma StepShaped(st: State, spec: ClusterSpec, world: World, snapshot: seq<string>, ctx: Context)
    requires AwsReady(ctx, spec, world) && StatusShaped(st.status)
    ensures StatusShaped(Step(st, spec, world, snapshot, ctx).status)
  {
    var k := ClientConfig(ctx.name, spec.remapToIp, world.baseLoads(ctx.name), world.starting);
    if k.Success? {
      var d := Details(ctx, k.value, world);
      if d.Success? {
        PersistShaped(st, spec, world, snapshot, ctx, k.value, d.value);
      }
    }
  }

  /** The loop keeps every entry named after its context and the rule counts ordered. */
  lemma {:induction false} RunShaped(st: State, spec: ClusterSpec, world: World, snapshot: seq<string>, contexts: seq<Context>)
    requires forall i :: 0 <= i < |contexts| ==> AwsReady(contexts[i], spec, world)
    requires StatusShaped(st.status)
    ensures StatusShaped(Run(st, spec, world, snapshot, contexts).status)
  {
    if contexts != [] {
      var init := contexts[..|contexts| - 1];
      RunShaped(st, spec, world, snapshot, init);
      StepShaped(Run(st, spec, world, snapshot, init), spec, world, snapshot, contexts[|contexts| - 1]);
    }
  }

  /** The names of the given contexts. */
  function Names(contexts: seq<Context>): (r: set<string>)
    ensures forall i :: 0 <= i < |contexts| ==> contexts[i].name in r
    ensures forall n :: n in r ==> exists i :: 0 <= i < |contexts| && contexts[i].name == n
  {
    set i | 0 <= i < |contexts| :: contexts[i].name
  }

  lemma StepKeys(st: State, spec: ClusterSpec, world: World, snapshot: seq<string>, ctx: Context)
    requires AwsReady(ctx, spec, world)
    ensures Step(st, spec, world, snapshot, ctx).status.clusterStatus.Keys <= st.status.clusterStatus.Keys + {ctx.name}
  {
    var k := ClientConfig(ctx.name, spec.remapToIp, world.baseLoads(ctx.name), world.starting);
    if k.Success? {
      var d := Details(ctx, k.value, world);
      if d.Success? {
        assert Step(st, spec, world, snapshot, ctx) == Persist(st, spec, world, snapshot, ctx, k.value, d.value);
      }
    }
  }

  /** Every key the loop adds to the status is the name of a context it visited. */
  lemma {:induction false} RunKeys(st: State, spec: ClusterSpec, world: World, snapshot: seq<string>, contexts: seq<Context>)
    requires forall i :: 0 <= i < |contexts| ==> AwsReady(contexts[i], spec, world)
    ensures Run(st, spec, world, snapshot, contexts).status.clusterStatus.Keys
         <= st.status.clusterStatus.Keys + Names(contexts)
  {
    if contexts != [] {
      var init := contexts[..|contexts| - 1];
      RunKeys(st, spec, world, snapshot, init);
      StepKeys(Run(st, spec, world, snapshot, init), spec, world, snapshot, contexts[|contexts| - 1]);
      assert Names(contexts) == Names(init) + {contexts[|contexts| - 1].name};
    }
  }

  // ---- every entry is backed by a namespace and a secret ----

  /**
   * The namespace derived from the key is in the snapshot or the store,
   * and a secret carrying the sanitised name exists in some namespace.
   */
  predicate Backed(status: Status, store: Store, spec: ClusterSpec, snapshot: seq<string>) {
    forall n :: n in status.clusterStatus ==>
      && (NamespaceName(spec.namespacePrefix, Sanitize(n)) in snapshot
          || NamespaceName(spec.namespacePrefix, Sanitize(n)) in store.namespaces)
      && HasSecretNamed(store.secrets, SecretName(Sanitize(n)))
  }

  lemma BackedGrows(status: Status, a: Store, b: Store, spec: ClusterSpec, snapshot: seq<string>)
    requires Backed(status, a, spec, snapshot) && Grows(a, b)
    ensures Backed(status, b, spec, snapshot)
  {
    forall n | n in status.clusterStatus
      ensures HasSecretNamed(b.secrets, SecretName(Sanitize(n)))
      ensures NamespaceName(spec.namespacePrefix, Sanitize(n)) in a.namespaces ==>
        NamespaceName(spec.namespacePrefix, Sanitize(n)) in b.namespaces
    {
      var i :| 0 <= i < |a.secrets| && a.secrets[i].name == SecretName(Sanitize(n));
      assert b.secrets[i] == a.secrets[i];
      var ns := NamespaceName(spec.namespacePrefix, Sanitize(n));
      if ns in a.namespaces {
        var j :| 0 <= j < |a.namespaces| && a.namespaces[j] == ns;
        assert b.namespaces[j] == ns;
      }
    }
  }

  lemma PersistBacked(st: State, spec: ClusterSpec, world: World, snapshot: seq<string>, ctx: Context, k: KConfig,
                      details: KubeApi.Config)
    requires ctx.name in details.clusters && Backed(st.status, st.store, spec, snapshot)
    ensures var r := Persist(st, spec, world, snapshot, ctx, k, details); Backed(r.status, r.store, spec, snapshot)
  {
    var r := Persist(st, spec, world, snapshot, ctx, k, details);
    var name := Sanitize(ctx.name);
    var namespace := NamespaceName(spec.namespacePrefix, name);
    var (store1, namespaceOk) := EnsureNamespace(st.store, namespace, snapshot, world);
    assert Grows(st.store, store1);
    BackedGrows(st.status, st.store, store1, spec, snapshot);
    if namespaceOk {
      var (store2, secretOk) := EnsureSecret(store1, namespace, name, details, world);
      assert Grows(store1, store2);
      BackedGrows(st.status, store1, store2, spec, snapshot);
      if secretOk {
        assert namespace in snapshot || namespace in store2.namespaces;
        assert HasSecretNamed(store2.secrets, SecretName(name)) by {
          if !HasSecretNamed(store1.secrets, SecretName(name)) {
            assert store2.secrets[|store1.secrets|].name == SecretName(name);
          }
        }
      }
    }
  }

  lemma StepBacked(st: State, spec: ClusterSpec, world: World, snapshot: seq<string>, ctx: Context)
    requires AwsReady(ctx, spec, world) && Backed(st.status, st.store, spec, snapshot)
    ensures var r := Step(st, spec, world, snapshot, ctx); Backed(r.status, r.store, spec, snapshot)
  {
    var k := ClientConfig(ctx.name, spec.remapToIp, world.baseLoads(ctx.name), world.starting);
    if k.Success? {
      var d := Details(ctx, k.value, world);
      if d.Success? {
        PersistBacked(st, spec, world, snapshot, ctx, k.value, d.value);
      }
    }
  }

  /** After the loop, every status entry has its namespace and its secret in the store. */
  lemma {:induction false} RunBacked(st: State, spec: ClusterSpec, world: World, snapshot: seq<string>, contexts: seq<Context>)
    requires forall i :: 0 <= i < |contexts| ==> AwsReady(contexts[i], spec, world)
    requires Backed(st.status, st.store, spec, snapshot)
    ensures var r := Run(st, spec, world, snapshot, contexts); Backed(r.status, r.store, spec, snapshot)
  {
    if contexts != [] {
      var init := contexts[..|contexts| - 1];
      RunBacked(st, spec, world, snapshot, init);
      StepBacked(Run(st, spec, world, snapshot, init), spec, world, snapshot, contexts[|contexts| - 1]);
    }
  }

  // ---- a second pass changes nothing ----

  /** The namespace of the context is in the snapshot and a secret of its sanitised name exists. */
  predicate AlreadyStored(store: Store, spec: ClusterSpec, snapshot: seq<string>, ctx: Context) {
    && NamespaceName(spec.namespacePrefix, Sanitize(ctx.name)) in snapshot
    && HasSecretNamed(store.secrets, SecretName(Sanitize(ctx.name)))
  }

  lemma StepStoresNothing(st: State, spec: ClusterSpec, world: World, snapshot: seq<string>, ctx: Context)
    requires AwsReady(ctx, spec, world) && AlreadyStored(st.store, spec, snapshot, ctx)
    ensures Step(st, spec, world, snapshot, ctx).store == st.store
  {
  }

  /**
   * When the snapshot already lists every namespace and every secret name
   * is taken, the loop issues no create call and leaves the store as it was.
   */
  lemma {:induction false} RunStoresNothing(st: State, spec: ClusterSpec, world: World, snapshot: seq<string>,
                                            contexts: seq<Context>)
    requires forall i :: 0 <= i < |contexts| ==> AwsReady(contexts[i], spec, world)
    requires forall i :: 0 <= i < |contexts| ==> AlreadyStored(st.store, spec, snapshot, contexts[i])
    ensures Run(st, spec, world, snapshot, contexts).store == st.store
  {
    if contexts != [] {
      var init := contexts[..|contexts| - 1];
      RunStoresNothing(st, spec, world, snapshot, init);
      StepStoresNothing(Run(st, spec, world, snapshot, init), spec, world, snapshot, contexts[|contexts| - 1]);
    }
  }

  // ---- readiness is probed under the unsanitised name ----

  /** A secret name made of a clean name and "-kubeconfig". */
  predicate CleanSecretName(name: string) {
    |name| >= 11 && name[|name| - 11..] == "-kubeconfig" && Clean(name[..|name| - 11])
  }

  /** Secrets past the first `from` are named after clean names. */
  predicate CreatedClean(secrets: seq<Secret>, from: nat) {
    forall j :: from <= j < |secrets| ==> CleanSecretName(secrets[j].name)
  }

  /**
   * An entry whose context name is not clean, and whose probed secret name
   * the initial store did not hold, is not ready.
   */
  predicate UncleanNotReady(status: Status, initial: seq<Secret>) {
    forall n :: n in status.clusterStatus && !Clean(n) && !HasSecretNamed(initial, n + "-kubeconfig") ==>
      !status.clusterStatus[n].ready
  }

  predicate ProbeInvariant(st: State, initial: seq<Secret>) {
    && initial <= st.store.secrets
    && CreatedClean(st.store.secrets, |initial|)
    && UncleanNotReady(st.status, initial)
  }

  lemma SanitisedSecretNameIsClean(x: string)
    ensures CleanSecretName(SecretName(Sanitize(x)))
  {
    var c := Sanitize(x);
    var s := SecretName(c);
    assert s[|s| - 11..] == "-kubeconfig" && s[..|s| - 11] == c;
  }

  /** A probe under a name that is not clean finds no secret the pass created, nor one the initial store lacked. */
  lemma ProbeFails(secrets: seq<Secret>, initial: seq<Secret>, n: string, namespace: string, world: World)
    requires initial <= secrets && CreatedClean(secrets, |initial|)
    requires !Clean(n) && !HasSecretNamed(initial, n + "-kubeconfig")
    ensures !ClusterAvailable(secrets, namespace, n + "-kubeconfig", world)
  {
    var probe := n + "-kubeconfig";
    assert probe[..|probe| - 11] == n;
    forall j | 0 <= j < |secrets|
      ensures secrets[j].name != probe
    {
      if j < |initial| {
        assert secrets[j] == initial[j];
      } else {
        assert CleanSecretName(secrets[j].name);
      }
    }
  }

  lemma EnsureSecretClean(store: Store, namespace: string, x: string, details: KubeApi.Config, world: World,
                          initial: seq<Secret>)
    requires initial <= store.secrets && CreatedClean(store.secrets, |initial|)
    ensures var r := EnsureSecret(store, namespace, Sanitize(x), details, world).0;
      initial <= r.secrets && CreatedClean(r.secrets, |initial|)
  {
    SanitisedSecretNameIsClean(x);
  }

  lemma RecordProbe(status: Status, secrets: seq<Secret>, spec: ClusterSpec, ctx: Context, k: KConfig,
                    details: KubeApi.Config, namespace: string, world: World, initial: seq<Secret>)
    requires ctx.name in details.clusters
    requires initial <= secrets && CreatedClean(secrets, |initial|) && UncleanNotReady(status, initial)
    ensures UncleanNotReady(Record(status, secrets, spec, ctx, k, details, namespace, world), initial)
  {
    if !Clean(ctx.name) && !HasSecretNamed(initial, ctx.name + "-kubeconfig") {
      ProbeFails(secrets, initial, ctx.name, namespace, world);
    }
  }

  lemma PersistProbe(st: State, spec: ClusterSpec, world: World, snapshot: seq<string>, ctx: Context, k: KConfig,
                     details: KubeApi.Config, initial: seq<Secret>)
    requires ctx.name in details.clusters && ProbeInvariant(st, initial)
    ensures ProbeInvariant(Persist(st, spec, world, snapshot, ctx, k, details), initial)
  {
    var name := Sanitize(ctx.name);
    var namespace := NamespaceName(spec.namespacePrefix, name);
    var (store1, namespaceOk) := EnsureNamespace(st.store, namespace, snapshot, world);
    if namespaceOk {
      var (store2, secretOk) := EnsureSecret(store1, namespace, name, details, world);
      EnsureSecretClean(store1, namespace, ctx.name, details, world, initial);
      if secretOk {
        RecordProbe(st.status, store2.secrets, spec, ctx, k, details, namespace, world, initial);
      }
    }
  }

  lemma StepProbe(st: State, spec: ClusterSpec, world: World, snapshot: seq<string>, ctx: Context, initial: seq<Secret>)
    requires AwsReady(ctx, spec, world) && ProbeInvariant(st, initial)
    ensures ProbeInvariant(Step(st, spec, world, snapshot, ctx), initial)
  {
    var k := ClientConfig(ctx.name, spec.remapToIp, world.baseLoads(ctx.name), world.starting);
    if k.Success? {
      var d := Details(ctx, k.value, world);
      if d.Success? {
        PersistProbe(st, spec, world, snapshot, ctx, k.value, d.value, initial);
      }
    }
  }

  /**
   * The secret is stored under the sanitised name but readiness is probed
   * under the context name: a context whose name is not clean is never
   * reported ready by the pass unless a secret of the unsanitised name was
   * already stored before it.
   */
  lemma {:induction false} RunProbe(st: State, spec: ClusterSpec, world: World, snapshot: seq<string>,
                                    contexts: seq<Context>, initial: seq<Secret>)
    requires forall i :: 0 <= i < |contexts| ==> AwsReady(contexts[i], spec, world)
    requires ProbeInvariant(st, initial)
    ensures ProbeInvariant(Run(st, spec, world, snapshot, contexts), initial)
  {
    if contexts != [] {
      var init := contexts[..|contexts| - 1];
      RunProbe(st, spec, world, snapshot, init, initial);
      StepProbe(Run(st, spec, world, snapshot, init), spec, world, snapshot, contexts[|contexts| - 1], initial);
    }
  }

  // ---- one context ----

  /**
   * A stored context's entry points at the remapped server address and
   * names the unsanitised secret; with an empty remap target, a server that
   * was an IP address still gets a delete rule, with an empty public
   * address.
   */
  lemma StepEntry(st: State, spec: ClusterSpec, world: World, snapshot: seq<string>, ctx: Context)
    requires AwsReady(ctx, spec, world)
    requires ctx.name !in st.status.clusterStatus
    requires ctx.name in Step(st, spec, world, snapshot, ctx).status.clusterStatus
    ensures var k := ClientConfig(ctx.name, spec.remapToIp, world.baseLoads(ctx.name), world.starting);
      var entry := Step(st, spec, world, snapshot, ctx).status.clusterStatus[ctx.name];
      && k.Success?
      && entry.endpoint == Remap(ServerOf(world.starting.value, ctx.name), spec.remapToIp).address
      && entry.kubeConfig == ctx.name + "-kubeconfig"
    ensures var k := ClientConfig(ctx.name, spec.remapToIp, world.baseLoads(ctx.name), world.starting);
      spec.remapToIp == [] && ParsesAsIp(k.value.originalIp) ==>
      Step(st, spec, world, snapshot, ctx).status.deletionRules
        == st.status.deletionRules + [MakeDeleteFirewallRule(spec.firewallFormat, k.value.originalIp, "", k.value.port)]
  {
    var k := ClientConfig(ctx.name, spec.remapToIp, world.baseLoads(ctx.name), world.starting);
    assert k.Success?;
    var d := Details(ctx, k.value, world);
    assert d.Success?;
    ClientConfigFields(ctx.name, spec.remapToIp, world.starting.value);
    if spec.remapToIp == [] && ParsesAsIp(k.value.originalIp) {
      IpLiteralNotEmpty(k.value.originalIp);
    }
  }

  /**
   * The namespace snapshot is taken once, before the loop: a namespace
   * created earlier in the same pass is not in it, so a second context that
   * maps to it has its create refused and gets no entry.
   */
  lemma StaleSnapshotSkips(st: State, spec: ClusterSpec, world: World, snapshot: seq<string>, ctx: Context)
    requires AwsReady(ctx, spec, world)
    requires NamespaceName(spec.namespacePrefix, Sanitize(ctx.name)) !in snapshot
    requires NamespaceName(spec.namespacePrefix, Sanitize(ctx.name)) in st.store.namespaces
    ensures Step(st, spec, world, snapshot, ctx).status == st.status
  {
  }

  /**
   * Rules follow the record: none unless its server was an IP literal other
   * than the remap target; then always a delete rule, and an add rule
   * exactly when the entry is not ready.
   */
  lemma RecordRules(status: Status, secrets: seq<Secret>, spec: ClusterSpec, ctx: Context, k: KConfig,
                    details: KubeApi.Config, namespace: string, world: World)
    requires ctx.name in details.clusters
    ensures var r := Record(status, secrets, spec, ctx, k, details, namespace, world);
      !NeedsRules(k) ==> r.firewallRules == status.firewallRules && r.deletionRules == status.deletionRules
    ensures var r := Record(status, secrets, spec, ctx, k, details, namespace, world);
      NeedsRules(k) ==>
        && r.deletionRules == status.deletionRules + [MakeDeleteFirewallRule(spec.firewallFormat, k.originalIp, k.remappedIp, k.port)]
        && (r.clusterStatus[ctx.name].ready ==> r.firewallRules == status.firewallRules)
        && (!r.clusterStatus[ctx.name].ready ==>
              r.firewallRules == status.firewallRules + [MakeFirewallRule(spec.firewallFormat, k.originalIp, k.remappedIp, k.port)])
  {
  }

  /**
   * A context that fails at any stage (connection record, document,
   * namespace create, secret create) leaves the status as it was: no entry
   * and no rules.
   */
  lemma StepFailureLeavesStatus(st: State, spec: ClusterSpec, world: World, snapshot: seq<string>, ctx: Context)
    requires AwsReady(ctx, spec, world)
    ensures var k := ClientConfig(ctx.name, spec.remapToIp, world.baseLoads(ctx.name), world.starting);
      Step(st, spec, world, snapshot, ctx).status != st.status ==>
        && k.Success?
        && Details(ctx, k.value, world).Success?
        && var namespace := NamespaceName(spec.namespacePrefix, Sanitize(ctx.name));
           var (store1, namespaceOk) := EnsureNamespace(st.store, namespace, snapshot, world);
           && namespaceOk
           && EnsureSecret(store1, namespace, Sanitize(ctx.name), Details(ctx, k.value, world).value, world).1
  {
  }

  // ---- the whole pass ----

  /** A document that cannot be read gives an empty status; a failed namespace listing gives none. */
  lemma PassListingFailures(store: Store, spec: ClusterSpec, world: World)
    requires WellFormed(spec, world)
    ensures world.starting.None? ==>
      Pass(store, spec, world) == (Outcome(Some(EmptyStatus), Some(ListContextsFailed)), store)
    ensures world.starting.Some? && !world.namespaceListOk ==>
      Pass(store, spec, world) == (Outcome(None, Some(ListNamespacesFailed)), store)
    ensures world.starting.Some? && world.namespaceListOk ==> Pass(store, spec, world).0.err.None?
  {
  }

  /**
   * The status of a pass that lists its contexts: every key is a listed
   * context, every entry is named after its key and backed by a namespace
   * and a secret in the final store, add rules never outnumber delete
   * rules, the store only grew, and unclean context names are not ready.
   */
  lemma PassStatus(store: Store, spec: ClusterSpec, world: World)
    requires WellFormed(spec, world)
    requires Pass(store, spec, world).0.err.None?
    ensures var (outcome, final) := Pass(store, spec, world);
      var status := outcome.status.value;
      && outcome.status.Some?
      && status.clusterStatus.Keys <= Names(Listed(spec, world))
      && StatusShaped(status)
      && Backed(status, final, spec, store.namespaces)
      && Grows(store, final)
      && UncleanNotReady(status, store.secrets)
  {
    if world.starting.Some? && world.namespaceListOk {
      var contexts := Listed(spec, world);
      var st := State(store, EmptyStatus);
      RunKeys(st, spec, world, store.namespaces, contexts);
      RunShaped(st, spec, world, store.namespaces, contexts);
      RunBacked(st, spec, world, store.namespaces, contexts);
      RunGrows(st, spec, world, store.namespaces, contexts);
      RunProbe(st, spec, world, store.namespaces, contexts, store.secrets);
    }
  }
}
