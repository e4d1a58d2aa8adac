# kubeconfig-operator, modelled in Dafny

The kubeconfig operator watches `Cluster` objects. For each one it reads a kubeconfig file and keeps the contexts whose cluster server is on a domain allow-list. For every kept context it:

- creates a namespace;
- stores a one-context kubeconfig document in a secret in that namespace (client certificate, or an EKS bearer token);
- records a status entry;
- when a loopback server was remapped to an external address, emits firewall rules that forward the port.

This project models one reconcile pass and the pure pieces it is built from, one Dafny module per Go file:

| module | Go file | form |
|---|---|---|
| `Helpers` | internal/helpers/helpers.go | function |
| `Types` | internal/kubeconfig/types.go | functions, and a method for the appending loop of `NewAllowedDomains` |
| `Hostname` | internal/kubeconfig/hostname.go | function |
| `Firewall` | internal/kubeconfig/firewall.go | functions of the `FirewallFormat` string |
| `ClientConfiguration` | internal/kubeconfig/clientconfig.go | function of an already parsed kubeconfig document |
| `ClientCert` | internal/kubeconfig/clientcert/clientcert.go | function |
| `AwsTypes` | internal/kubeconfig/aws/types.go | function |
| `AwsEks` | internal/kubeconfig/aws/eks.go | functions; the token presigner is a parameter |
| `Naming` | internal/kubeconfig/reconcile.go:113-121 | functions (namespace-name sanitisation) |
| `Reconcile` | internal/kubeconfig/reconcile.go | `class Manager`, whose methods change the store in place, proved against specification functions |
| `ReconcileProperties` | internal/kubeconfig/reconcile.go | lemmas about the pass |

`Text`, `Url` and `Net` are small models of the Go library functions the code calls: `strings`, `url.ParseRequestURI`, `net.SplitHostPort` and `net.ParseIP`. `KubeApi` holds the shapes of the kubeconfig document and of the REST settings. `Wrappers` holds `Option` and `Result`.

The pass runs against an API server. In the model that server is the state of a `Manager`: a sequence of namespace names, a sequence of secrets (namespace, name, data), and a ghost log of the create calls the pass issues. Everything else the pass consults is a `World` value:

- the parsed kubeconfig document;
- the order in which Go's map iteration visits its contexts;
- whether the REST settings of a context load;
- whether each list or create call succeeds;
- the AWS environment variables and the token presigner;
- the connection check of `clusterAvailable`.

Each method of `Manager` is proved equal to a specification function:

| method | specification function |
|---|---|
| `ReconcileKubeconfig` | `Pass` |
| `RunContexts` | `Run` |
| `ReconcileContext`, `ProvideContext`, `PersistContext` | `Step`, `Provide`, `Persist` |
| `CreateNamespaceForCluster` | `EnsureNamespace` |
| `CreateSecretForCluster` | `EnsureSecret` |
| `ListContexts` | `Allowed` |

The properties of the pass are proved about those functions in `ReconcileProperties`.

The model reproduces these behaviours of the code as written:

- A server without an explicit `:port` does not split, so it passes the allow-list only verbatim, and `remap` fails on it.
- The `https` scheme default is never used on success: a parsed URI with a host always has its own scheme.
- `remappedIp` is the configured remap target. With an empty target, a server that is an IP literal still gets rules, with an empty public address.
- A secret counts as present when any namespace holds a secret of that name.
- The secret is created under the sanitised name. The status entry and the readiness probe use the raw context name plus `-kubeconfig`. So a context whose name is not already clean is never reported ready by the pass, unless a secret of its raw name existed beforehand.
- Namespaces are checked against a list taken once, before the loop. So a second context that sanitises to the same namespace has its create refused, and it gets no entry.
- The AWS document is keyed by the cluster name but read back by the context name (internal/kubeconfig/reconcile.go:144). The ARN parser indexes the sixth colon field of the cluster name, and the token request parses it before anything can fail. So, for every visited context whose connection record is an AWS one, the pass requires that the cluster name have at least six colon fields. It also requires that the context be named after its cluster whenever the AWS document is built. A context whose token request fails is not constrained by name, and neither are contexts the allow-list drops or whose record cannot be built.

Further behaviours of the code that the model states:

- The code lists secrets again for every context (internal/kubeconfig/reconcile.go:193-197), so a secret created earlier in the pass is seen.
- A second pass is free of create calls only for contexts whose namespace is in the snapshot and whose secret name is taken. `ReconcileProperties.RunStoresNothing` states that condition.
- The ufw, pf and ipfw delete rules are not the add rule with one word swapped; the iptables, nftables and firewalld ones are (see the `Firewall` rows).

## Model

| member | source | states |
|---|---|---|
| Helpers.AddressToSchemeHostPort | internal/helpers/helpers.go:8-33 | on success scheme, host and port are all non-empty; a request-URI failure gives empty outputs and the error; a host:port split failure keeps the scheme and leaves host and port empty |
| Helpers.AddressRoundTrip | internal/helpers/helpers.go:8-33 | "scheme://host:port" gives back the lower-cased scheme, the host ("localhost" when empty) and the port ("6443" when empty) |
| Helpers.MissingPortIsError | internal/helpers/helpers.go:19-22 | an authority without ":port" is a split error, not a default port |
| Helpers.NoAuthorityIsError | internal/helpers/helpers.go:10-22 | an address with no '/' or no ':' always fails |
| Helpers.SchemeDefaultUnused | internal/helpers/helpers.go:14-17 | on success the scheme is the parsed, non-empty one, so the "https" default never applies |
| Helpers.ResultIsClean | internal/helpers/helpers.go:19-30 | on success the host and port hold no '/' or '?', the port no ':' and the host no '[' |
| Helpers.EmptyHostDefaults | internal/helpers/helpers.go:24-26 | "https://:6443" gives host "localhost" |
| Helpers.EmptyPortDefaults | internal/helpers/helpers.go:28-30 | "https://localhost:" gives port "6443" |
| Helpers.LocalhostUrl | internal/helpers/helpers.go:8-33 | "https://localhost:6443" splits into "https", "localhost", "6443" |
| Net.SplitHostPortJoin | internal/helpers/helpers.go:19 | "host:port" without colons or brackets in either part splits back into host and port |
| Url.ParseSchemeAuthority | internal/helpers/helpers.go:10 | "scheme://hp" followed by nothing, a path or a query parses to the lower-cased scheme and host hp |
| Url.NoSlashNoHost | internal/helpers/helpers.go:10 | a string without '/' never parses to a non-empty host |
| Url.NoColonNoHost | internal/helpers/helpers.go:10 | a string without ':' never parses to a non-empty host |
| Types.NewAllowedDomains | internal/kubeconfig/types.go:35-44 | the result is the five defaults followed by the configured domains in order, of length 5 + their count |
| Types.Has | internal/kubeconfig/types.go:47-63 | true exactly when the candidate is an entry verbatim, or it splits and its host is an entry |
| Types.DefaultsAlwaysAllowed | internal/kubeconfig/types.go:20-26 | every default domain is allowed whatever is configured |
| Types.NothingInEmpty | internal/kubeconfig/types.go:47-63 | an empty list allows nothing |
| Types.HasMonotone | internal/kubeconfig/types.go:47-63 | adding entries on either side never turns a match into a miss |
| Types.HasBareName | internal/kubeconfig/types.go:49-51 | a candidate without '/' is allowed exactly when it is an entry verbatim |
| Types.LocalhostUrlAllowed | internal/kubeconfig/types.go:52-59 | "https://localhost:6443" is allowed through its host by the "localhost" default |
| Types.NoSuffixMatch | internal/kubeconfig/types.go:49-59 | "https://api.cluster.local:6443" is not allowed by the defaults: no suffix matching |
| Types.Find | internal/kubeconfig/types.go:88-98 | None exactly when no context has the name; otherwise a listed context with that name |
| Types.FindFirst | internal/kubeconfig/types.go:88-98 | Find returns the first context that carries the name |
| Hostname.Remap | internal/kubeconfig/hostname.go:15-35 | the error and port are the split's; on error the address is returned twice with an empty port; on success port and original host are non-empty |
| Hostname.RemapLoopback | internal/kubeconfig/hostname.go:25-31 | a target and a host in the remap list give scheme://target:port and original host 127.0.0.1 |
| Hostname.RemapKeeps | internal/kubeconfig/hostname.go:25-34 | an empty target or another host keeps the address, with the parsed host and port |
| Hostname.RemapExample | internal/kubeconfig/hostname.go:15-35 | remap("https://localhost:6443", "10.0.0.5") is ("https://10.0.0.5:6443", "127.0.0.1", "6443", no error) |
| Firewall.DialectOf | internal/kubeconfig/firewall.go:6-37 | iptables exactly for a format other than nftables, ufw, firewalld, ipfw and pf |
| Firewall.UnknownFormatIsIptables | internal/kubeconfig/firewall.go:33-37 | any other format renders the same add and delete rules as "iptables" |
| Firewall.IptablesDeleteSwapsFlag | internal/kubeconfig/firewall.go:66-70 | the iptables delete rule is the add rule with its first "-A " replaced by "-D " |
| Firewall.NftablesDeleteSwapsVerb | internal/kubeconfig/firewall.go:43-47 | the nftables delete rule is the add rule with its first "add " replaced by "delete " |
| Firewall.FirewalldDeleteSwapsOption | internal/kubeconfig/firewall.go:53-58 | the firewalld delete rule is the add rule with "--add-rich-rule" replaced by "--remove-rich-rule", and neither depends on the public IP |
| Firewall.IpfwRuleNumber | internal/kubeconfig/firewall.go:23-27 | the ipfw add rule starts "ipfw add 100 " and its delete rule is the constant "ipfw delete 100" |
| Firewall.DeleteIgnoresLocalIp | internal/kubeconfig/firewall.go:48-65 | the ufw and pf delete rules do not depend on the local IP |
| ClientConfiguration.Classify | internal/kubeconfig/clientconfig.go:42-52 | AWS exactly for the exec commands "aws-iam-authenticator" and "aws"; client-cert otherwise |
| ClientConfiguration.ClientConfig | internal/kubeconfig/clientconfig.go:9-75 | on success the provider is AWS or client-cert, remappedIp is the configured target, the port is non-empty, and the context exists |
| ClientConfiguration.LookupErrorsInOrder | internal/kubeconfig/clientconfig.go:29-57 | a missing context, cluster or auth-info, or an unsplittable server, is each its own error, checked in that order |
| ClientConfiguration.ClientConfigFields | internal/kubeconfig/clientconfig.go:54-72 | the record carries the remap results, the target, the cluster's CA, the auth-info's certificate and key, and its user name or else the auth-info's name |
| ClientConfiguration.LoopbackContextIsRemapped | internal/kubeconfig/clientconfig.go:54-63 | a loopback server with a target gives host scheme://target:port and original IP 127.0.0.1 |
| ClientCert.KubeConfig | internal/kubeconfig/clientcert/clientcert.go:8-33 | never fails; one cluster and one context keyed by the context name, one auth-info keyed by the user, and current context the context name |
| ClientCert.ClientCertDocument | internal/kubeconfig/clientcert/clientcert.go:11-29 | the document is self-contained and carries server, CA data, user binding, certificate and key, with no token and no exec block |
| AwsTypes.NewArn | internal/kubeconfig/aws/types.go:21-42 | no ':' in the first four fields and no '/' in resource or name |
| AwsTypes.ArnRoundTrip | internal/kubeconfig/aws/types.go:21-42 | for six or more colon-free fields whose sixth is resource/name, optionally followed by '/' and more pieces, parsing the joined string gives fields 1 to 4, the resource and the name; field 0, later pieces and later fields are ignored |
| AwsTypes.ArnWithoutResourceName | internal/kubeconfig/aws/types.go:28-32 | a sixth field without '/' leaves resource and name empty |
| AwsEks.StsClientSettings | internal/kubeconfig/aws/eks.go:106-148 | on success the region is the given one or "us-east-1", and the session token is passed through |
| AwsEks.GetToken | internal/kubeconfig/aws/eks.go:68-104 | succeeds exactly when the STS client settings for the ARN's region build and the presigner answers for the ARN's resource name; the token is that answer, and a settings failure is returned as the error |
| AwsEks.KubeConfig | internal/kubeconfig/aws/eks.go:37-66 | fails exactly when the token fails, with its error; otherwise one cluster and one context keyed by the name, one auth-info keyed by the user, and current context the name |
| AwsEks.AwsDocument | internal/kubeconfig/aws/eks.go:43-62 | the document is self-contained; the auth-info holds the token and no certificate, key or exec block |
| AwsEks.StsParseErrors | internal/kubeconfig/aws/eks.go:118-148 | an unsplittable LOCALSTACK_HOST, then an unsplittable server, is each its own error; when both split, the settings always build |
| AwsEks.LocalstackCredentials | internal/kubeconfig/aws/eks.go:138-148 | on the localstack host, endpoint and keys take their defaults exactly when unset; elsewhere they pass through |
| AwsEks.DefaultLocalstack | internal/kubeconfig/aws/eks.go:118-148 | with nothing set, a localstack server gets the localstack endpoint and "test" credentials |
| Naming.Sanitize | internal/kubeconfig/reconcile.go:113-114 | the result is no longer than the input, empty exactly when it is, starts with its first character or '-', and is clean (letters, digits and single '-') |
| Naming.SanitizeAlnumPrefix | internal/kubeconfig/reconcile.go:113-114 | a leading run of letters and digits is copied unchanged |
| Naming.SanitizeRun | internal/kubeconfig/reconcile.go:113-114 | a maximal run of other characters becomes a single '-' |
| Naming.SanitizeFixedPoint | internal/kubeconfig/reconcile.go:113-114 | a name is its own sanitised form exactly when it is clean |
| Naming.SanitizeIdempotent | internal/kubeconfig/reconcile.go:113-114 | sanitising twice is sanitising once |
| Naming.NamespaceName | internal/kubeconfig/reconcile.go:116-121 | with no prefix, the name; a prefix ending in '-' loses exactly that one '-' before '-' and the name are appended; any other prefix is kept whole |
| Naming.PrefixDashDropped | internal/kubeconfig/reconcile.go:118-120 | a prefix with or without one trailing '-' gives the same namespace |
| Reconcile.Allowed | internal/kubeconfig/reconcile.go:241-253 | at most as many contexts as the iteration visits |
| Reconcile.Details | internal/kubeconfig/reconcile.go:95-111 | client-cert always succeeds; on success the single cluster is keyed by the cluster name for AWS and the context name otherwise, with the record's host as server |
| Reconcile.EnsureNamespace | internal/kubeconfig/reconcile.go:163-188 | a name in the snapshot changes nothing and succeeds; otherwise one create call is logged, and success adds the name, which the store did not hold |
| Reconcile.EnsureSecret | internal/kubeconfig/reconcile.go:190-231 | a failed listing fails and changes nothing; a taken name changes nothing and succeeds; otherwise one CreateSecret call for <name>-kubeconfig in the namespace is logged, and the secrets either gain that secret with the document under "value" (success) or stay unchanged (failure) |
| Reconcile.SecretName | internal/kubeconfig/reconcile.go:199 | the cluster name followed by eleven more characters |
| Reconcile.Record | internal/kubeconfig/reconcile.go:142-158 | the status gains exactly the key of the context name |
| Reconcile.Pass | internal/kubeconfig/reconcile.go:63-161 | an error leaves the store as it was; the status is absent exactly on a failed namespace listing |
| Reconcile.AllowedAreContexts | internal/kubeconfig/reconcile.go:241-253 | every listed context is a visited context, built from the document, whose server the allow-list accepts |
| Reconcile.ListedAreReady | internal/kubeconfig/reconcile.go:95-99 | a resolving document whose AWS contexts are all named after their ARN cluster meets the pass's precondition for every spec |
| Reconcile.Manager.constructor | internal/kubeconfig/reconcile.go:52-60 | a manager for a cluster spec over a given store, with no calls logged |
| Reconcile.Manager.ListContexts | internal/kubeconfig/reconcile.go:233-256 | fails exactly when the document cannot be read; otherwise returns Allowed over the iteration order; it needs only that every context names an existing cluster |
| Reconcile.Manager.CreateNamespaceForCluster | internal/kubeconfig/reconcile.go:163-188 | the new store and result are EnsureNamespace of the old store |
| Reconcile.Manager.CreateSecretForCluster | internal/kubeconfig/reconcile.go:190-231 | the new store and result are EnsureSecret of the old store |
| Reconcile.Manager.ReconcileContext | internal/kubeconfig/reconcile.go:89-93 | the new store and status are Step of the old ones |
| Reconcile.Manager.ProvideContext | internal/kubeconfig/reconcile.go:95-111 | the new store and status are Provide of the old ones |
| Reconcile.Manager.PersistContext | internal/kubeconfig/reconcile.go:113-158 | the new store and status are Persist of the old ones |
| Reconcile.Manager.RunContexts | internal/kubeconfig/reconcile.go:87-159 | the new store and status are Run of the old store from an empty status |
| Reconcile.Manager.ReconcileKubeconfig | internal/kubeconfig/reconcile.go:63-161 | the outcome and the new store are Pass of the old store |
| ReconcileProperties.ListedExactly | internal/kubeconfig/reconcile.go:241-253 | a visited context is listed exactly when the allow-list accepts its cluster's server |
| ReconcileProperties.RunGrows | internal/kubeconfig/reconcile.go:87-159 | the loop never removes a namespace, secret or logged call: each sequence only gains entries at its end |
| ReconcileProperties.RunShaped | internal/kubeconfig/reconcile.go:142-158 | every entry names its kubeconfig <key>-kubeconfig, and add rules never outnumber delete rules |
| ReconcileProperties.RunKeys | internal/kubeconfig/reconcile.go:142-147 | every key the loop adds is the name of a visited context |
| ReconcileProperties.RunBacked | internal/kubeconfig/reconcile.go:130-147 | every entry has its namespace in the snapshot or the store, and a secret of its sanitised name |
| ReconcileProperties.RunStoresNothing | internal/kubeconfig/reconcile.go:163-209 | when every namespace is in the snapshot and every secret name is taken, the loop issues no create call and leaves the store unchanged |
| ReconcileProperties.SanitisedSecretNameIsClean | internal/kubeconfig/reconcile.go:199 | the secret name of a sanitised name is a clean name plus "-kubeconfig" |
| ReconcileProperties.ProbeFails | internal/kubeconfig/reconcile.go:143 | a probe under an unclean name finds no secret the pass created or the first store lacked |
| ReconcileProperties.RunProbe | internal/kubeconfig/reconcile.go:136-145 | an entry whose context name is not clean is not ready, unless a secret of its raw name existed before the pass |
| ReconcileProperties.StepEntry | internal/kubeconfig/reconcile.go:142-157 | a new entry points at the remapped server and names the raw kubeconfig; with an empty target an IP server still gets a delete rule with an empty public address |
| ReconcileProperties.StaleSnapshotSkips | internal/kubeconfig/reconcile.go:130-134 | a namespace created earlier in the pass is not in the snapshot, so a context that maps to it leaves the status unchanged |
| ReconcileProperties.RecordRules | internal/kubeconfig/reconcile.go:149-158 | no rules unless the original IP is an IP literal other than the target; then one delete rule, and one add rule exactly when not ready |
| ReconcileProperties.StepFailureLeavesStatus | internal/kubeconfig/reconcile.go:89-140 | a context that fails at any stage leaves the status as it was |
| ReconcileProperties.PassListingFailures | internal/kubeconfig/reconcile.go:71-83 | an unreadable document gives an empty status and an error; a failed namespace listing gives no status and an error; otherwise no error |
| ReconcileProperties.PassStatus | internal/kubeconfig/reconcile.go:63-161 | after a full pass every key is a listed context, entries are shaped and backed by the final store, the store only grew, and unclean names are not ready |

## Left out

- `url.ParseRequestURI` is simplified: no percent-escapes, control bytes, host character validation, userinfo validation or IPv6 zones. Only the scheme scan, the query cut, the opaque form, the authority, the dropped userinfo and the numeric port check are kept.
- `net.ParseIP` is approximated for IPv6: any text of hex digits, ':' and '.' with at least one ':' counts. IPv4 is exact: four decimal octets, at most 255, no leading zero.
- The REST settings loader (`GetConfigWithContext`) is the `baseLoads` oracle. `GetStartingConfig` is one parsed document, shared by `listContexts` and `ClientConfig`; file and environment I/O are not modelled.
- `getToken`'s presigning, `LoadDefaultConfig`, `resolverV2`, `formatJSON`, base64 and the clock are the `presign` oracle. Only the defaulting of `stsclient` is modelled.
- `clusterAvailable`'s secret lookup is modelled. Decoding the document, building a client and listing namespaces through it are the `connects` oracle.
- `MinifyConfig` and `clientcmd.Write` are not modelled: the secret holds the document itself, so a serialisation failure cannot occur.
- Go map iteration order is the `contextOrder` parameter; no property depends on the order across contexts.
- Timestamps (`LastUpdateTime`), logging, the unused `namespaceCleanup` map and error message texts are left out. Errors are constructors.
- The API server's answers are oracles. The model refuses a duplicate namespace create itself; for secrets the name check always runs first.
- Go panics become preconditions (`Reconcile.WellFormed`, `Reconcile.AwsReady`). Every context of the document names an existing cluster, because listContexts reads each server through a pointer. Every visited context whose record is an AWS one has a cluster name of six or more colon fields. If its AWS document is built, the context is also named after its cluster.
- Reconcile.Persist: requires that the built document hold the context's name as a cluster key. Go reads that key only after the namespace and the secret succeed (internal/kubeconfig/reconcile.go:128-146). So an AWS context not named after its cluster, whose document builds but whose namespace or secret create then fails, survives in Go but is excluded here.
- Reconcile.Manager.PersistContext: the same exclusion as `Reconcile.Persist`.
- Reconcile.Provide, Reconcile.Manager.ProvideContext, Reconcile.Manager.ReconcileContext, Reconcile.Manager.RunContexts, Reconcile.Manager.ReconcileKubeconfig and Reconcile.Pass exclude that case too, through `AwsReady` and `WellFormed`. So do the `ReconcileProperties` lemmas about `Step`, `Run` and `Pass`. The case is exactly one where the namespace or secret create fails, so the context leaves the status unchanged in Go as well.
- The controller (internal/controller/cluster_controller.go) and the `Cluster` type declarations are not part of this model. `ClusterSpec` and `ClusterStatusEntry` reuse their shapes.
- The API server's answers (`namespaceCreateOk`, `secretListOk`, `secretCreateOk` of `World`) are functions of the names involved, so within one pass the same call always gets the same answer; a transient failure followed by a success on a repeated call cannot be expressed. No proved property depends on this.
- Reconcile.Allowed: its own contract gives only the length bound; which contexts it keeps is stated by `Reconcile.AllowedAreContexts` and `ReconcileProperties.ListedExactly`.
- Reconcile.Record: its own contract gives only the keys; the entry and rules are stated by `ReconcileProperties.StepEntry`, `RecordRules` and `RunShaped`.
- Firewall.MakeFirewallRule and Firewall.MakeDeleteFirewallRule carry no contract of their own; the dialect lemmas state how each pair relates.
