# capargo: provider resolution, credential normalisation and registration sync

capargo mirrors the access credentials of Cluster API workload clusters into
Argo CD cluster-registration secrets. This Dafny project models its core as
immutable datatypes and pure functions:

- **Provider resolution** (`pkg/providers`): a cluster's control-plane
  reference kind selects one of three providers (kubeadm, AWS managed,
  vcluster). Each provider can *locate* its kubeconfig secret, except AWS,
  which has no locate function. Each provider can also *validate* a
  candidate secret. Validation is modelled as the source's early-return
  chain, returning a `Verdict` that names the first failing check.
  `IsKubeconfig` is `Verdict.Accept?`.
- **Credential normalisation** (`buildClusterConfigFromRestConfig`,
  `mapEnv`): a parsed rest configuration becomes the registration payload's
  `ClusterConfig`.
- **Registration synthesis and apply policy** (`NewCollection`): the
  `-kubeconfig` watch filter, the derived Argo secret, and the collection's
  event handler. The handler is a step function over a map-shaped API store
  and returns an effect: the new store, the API calls made, and the
  recomputations scheduled.
- **Watch mapper** (`cmd/root.go`): a changed secret maps to at most one
  reconcile request, keyed by the constants in `pkg/common`.

Modules: `Wrappers`, `Strings`, `Kube` (the Kubernetes records and
apimachinery's `IsControlledBy`), `Common`, `Verdicts`, `Kubeadm`,
`VCluster`, `Aws`, `Providers`, `ClusterTypes`, `Credentials`,
`Registration`, `Events`, `Mapper` and `Sync` (synthesis and apply
combined).

External collaborators become parameters:
- the kubeadm provider's `Client.Get` of its control plane is a
  `lookup: NamespacedName -> Option<UID>`;
- the parsed kubeconfig is a `RestConfig` input;
- `json.Marshal` is an `encode` function;
- `krt.FetchOne` finding a cluster is a `clusterFound` flag;
- the API server's failures are a per-verb `Faults` record.

## Behaviour as written

The model follows the code, also where the code departs from its own tests
or from common Kubernetes conventions.

- The AWS validator compares the owner reference's `Name` with
  "AWSManagedControlPlane". It does not look at the reference's `Kind`. The
  AWS test fixture sets `Kind` and leaves `Name` empty, and its test expects
  acceptance. The model rejects that fixture (`Aws.OwnerKindAloneIsRejected`).
- `awsManagedControlPlane` has no `GetNamespacedName`, and its `IsKubeconfig`
  takes no context. So the Go package does not build as written. The model
  dispatches AWS validation normally. Locating an AWS secret returns the
  error `LocateUndefined` and the empty name. The model does not invent a
  naming rule.
- The kubeadm ownership check is apimachinery's `IsControlledBy`: the first
  owner reference marked as controller must carry the control plane's UID.
  Other owner references are allowed, so the kubeadm provider does not
  demand a single owner reference as the AWS provider does.
- The derived record carries no back-reference annotations. Its ownership
  label key is `controller`, not the shared controller-name label. So the
  watch mapper never maps it back (`Mapper.SynthesizedRecordNeverMapped`).
- The derived record's key drops the source secret's namespace. Two
  admitted secrets with the same name in different namespaces derive the
  same record (`Registration.CrossNamespaceCollision`); the informer watches
  every namespace when the cluster namespace option is left empty.
- The event handler treats every delete or update error alike, including
  not-found. Deleting an absent record schedules a recomputation
  (with the record passed explicitly; see "Left out")
  (`Events.SecondDeleteSchedulesRecompute`). A create error other than
  already-exists is dropped without retry.

## Model

| member | source | states |
|---|---|---|
| Strings.TrimSuffix | internal/controller/controller.go:62 | stripping a present suffix leaves a stem that re-appends to the original; without the suffix the name is unchanged |
| Strings.TrimAfterAppend | internal/controller/controller.go:62 | trimming `-kubeconfig` from `<x>-kubeconfig` gives back `x` |
| Kube.ControllerIndex | pkg/providers/kubeadm.go:73 | finds the first owner reference marked controller, or reports that none is |
| Kube.IsControlledBy | pkg/providers/kubeadm.go:73 | a controlled secret has a controller reference carrying the owner's UID; a secret without any controller reference is never controlled |
| Kube.IsControlledByCharacterization | pkg/providers/kubeadm.go:73 | controlled-by holds iff some controller reference carries the owner UID and no earlier reference is a controller |
| Common.KeysShareControllerPrefix | pkg/common/common.go:3-9 | all three keys begin with `capargo.superorbital.io/` |
| Common.KeysDistinct | pkg/common/common.go:5-8 | ControllerName is `capargo`; the label key is exactly `capargo.superorbital.io/controller-name`; the three keys are pairwise distinct |
| Kubeadm.GetNamespacedName | pkg/providers/kubeadm.go:29-34 | the located secret is in the control plane's namespace, and its name is the cluster name followed by `-kubeconfig` |
| Kubeadm.Validate | pkg/providers/kubeadm.go:38-88 | truth table: unsupported version, wrong type, label mismatch (missing reads ""), control plane not found, or not controlled each reject exactly when the earlier checks pass; accept iff all five hold |
| Kubeadm.IsKubeconfigIffAllChecks | pkg/providers/kubeadm.go:40-81 | for a non-empty cluster name, accepted iff version, type, label present and equal, lookup succeeds, and controlled by the found object |
| Kubeadm.MissingLabelMatchesEmptyClusterName | pkg/providers/kubeadm.go:50-58 | a secret with no cluster-name label passes the label check for a cluster named "" |
| Kubeadm.UncontrolledSecretRejected | pkg/providers/kubeadm.go:73-80 | a secret not controlled by the found control plane is rejected whatever else holds |
| Kubeadm.ValidationIgnoresSecretKey | pkg/providers/kubeadm.go:40-81 | the verdict does not depend on the secret's name or namespace |
| VCluster.GetNamespacedName | pkg/providers/vcluster.go:21-26 | the located secret is `<name>-kubeconfig` in the vcluster's namespace |
| VCluster.Validate | pkg/providers/vcluster.go:30-55 | unsupported version, namespace mismatch and name mismatch each reject exactly when the earlier checks pass |
| VCluster.IsKubeconfigIffAtLocatedKey | pkg/providers/vcluster.go:21-48 | locate and validate agree: accepted iff the version is supported and the secret sits at the located key |
| VCluster.ValidationIgnoresEverythingButKey | pkg/providers/vcluster.go:32-48 | type, labels, owner references and payload do not affect the verdict |
| Aws.Validate | pkg/providers/aws.go:18-55 | truth table of the chain: version, type, exactly one owner reference, owner name, namespace, `<name>-user-kubeconfig` name; accept iff all hold |
| Aws.RunInOrder | pkg/providers/aws.go:19-50 | running the checks in any given order with early exit accepts iff every listed check holds |
| Aws.OrderIrrelevant | pkg/providers/aws.go:19-50 | any order that runs all checks accepts exactly the secrets the source's order accepts |
| Aws.OwnerKindAloneIsRejected | pkg/providers/aws.go:32-37 | an owner reference with the right kind and an empty name is rejected |
| Providers.GetProvider | pkg/providers/providers.go:40-68 | each of the three kinds (exact match) yields its variant with fields from the reference (kubeadm: cluster name from the cluster); any other kind is an unsupported-kind error |
| Providers.IsCapiKubeconfig | pkg/providers/providers.go:72-78 | an unsupported kind gives (false, error); never true with an error; otherwise the provider's verdict with no error |
| Providers.GetCapiKubeconfigNamespacedName | pkg/providers/providers.go:82-88 | on error the name is empty; kubeadm locates `<cluster>-kubeconfig`, vcluster `<ref name>-kubeconfig`, both in the reference's namespace |
| Providers.VClusterLocatedSecretValidates | pkg/providers/providers.go:72-88 | a secret at a vcluster's located key validates with no error exactly when the API version is supported |
| Providers.KubeadmVerdictIndependentOfLocation | pkg/providers/providers.go:72-88 | moving a secret to the kubeadm located key does not change its verdict |
| Credentials.MapEnv | internal/controller/controller.go:167-173 | the key set is the set of input names; each name maps to the value of its last entry |
| Credentials.MapEnvAppend | internal/controller/controller.go:169-171 | a later entry overwrites only its own name |
| Credentials.BuildClusterConfig | internal/controller/controller.go:132-165 | user and password copied only with a user name; token copied; TLS insecure with no CA data and server name, cert and key copied; no AWS auth; exec config present iff the input has one, fields copied and env mapped |
| Credentials.BuildIsNormalized | internal/controller/controller.go:132-165 | every output is insecure, has no CA data, no AWS auth, and no password without a user name |
| Credentials.EnvListFor | internal/controller/controller.go:167-173 | every environment map is the fold of some environment list |
| Credentials.NormalizedIsReachable | internal/controller/controller.go:132-165 | every record of that normalised shape is the output for some rest configuration |
| Registration.IsKubeconfigSecret | internal/controller/controller.go:51 | the watch filter admits a secret iff its name is some stem followed by `-kubeconfig` |
| Registration.ClusterNameOf | internal/controller/controller.go:62 | for an admitted secret, the cluster name plus `-kubeconfig` is the secret's name |
| Registration.BuildArgoSecret | internal/controller/controller.go:54-95 | no record iff no cluster was fetched; otherwise the stem name, the Argo namespace, exactly the two labels, no annotations, no type, owner references or binary data, and string payload exactly {name, server = host, config = encoded credentials} |
| Registration.DerivedNamesInjective | internal/controller/controller.go:62 | admitted secrets with distinct names, e.g. any two in one watched namespace, derive records at distinct keys |
| Registration.CrossNamespaceCollision | internal/controller/controller.go:80-83 | admitted secrets with one name in different namespaces derive records at the same key |
| Registration.DerivedNameIsClusterName | internal/controller/controller.go:62 | `<cluster>-kubeconfig` derives a record named `<cluster>` |
| Events.Create | internal/controller/controller.go:99 | a create succeeds iff no server error occurs and the key is free, and then adds the record; it fails with already-exists iff no server error occurs and the key is taken; a failure changes nothing |
| Events.Update | internal/controller/controller.go:109 | an update succeeds iff no server error occurs and the record exists, and then replaces it; a failure changes nothing |
| Events.Delete | internal/controller/controller.go:118 | a delete succeeds iff no server error occurs and the key exists, and then removes it; a failure changes nothing |
| Events.Handle | internal/controller/controller.go:96-127 | add creates, falling back to update on already-exists; a successful update replaces the record; delete deletes; a failed update or delete leaves the store as it was and schedules exactly one recompute after 15; a failed create that is not already-exists schedules none; no other key changes |
| Events.AddConverges | internal/controller/controller.go:98-116 | without server errors an add leaves the record in the store whether or not it existed |
| Events.AddIdempotent | internal/controller/controller.go:98-116 | delivering the same add twice leaves the store as once |
| Events.SecondDeleteSchedulesRecompute | internal/controller/controller.go:117-125 | a second delete of the same record leaves the store alone and schedules a recompute |
| Events.FailedCreateIsDropped | internal/controller/controller.go:99-106 | a create rejected by a server error leaves the record absent and schedules nothing |
| Mapper.MapSecretToRequests | cmd/root.go:107-127 | no label gives no request; a missing name or namespace annotation gives none; otherwise exactly one request keyed by the two annotations |
| Mapper.LabelValueIgnored | cmd/root.go:109 | only the label's presence matters, not its value |
| Mapper.SynthesizedRecordNeverMapped | internal/controller/controller.go:84-87 | the derived record never maps to a reconcile request |
| Sync.EndpointChangeUpdatesInPlace | internal/controller/controller.go:80-116 | a re-synthesised record with a new host, delivered as an update or an add, replaces the old one at the same key, carrying the new server and credential payload, with no record added and no recompute |

## Left out

- Process bootstrap: `cmd/capargo/main.go`, flags, scheme, manager and signal handling in `cmd/root.go`, and `pkg/types/options.go` beyond the Argo namespace parameter. These are configuration and I/O.
- The reactive framework wiring: the recompute trigger, informers, `FetchOne`, `MarkDependant` and `WrapClient`. Only the filter predicate and the builder are kept. `FetchOne` is called without a filter, so any Cluster at all gates the record, not the secret's own cluster; `clusterFound` therefore means "some cluster exists".
- Kubeconfig parsing and JSON encoding are foreign. The builder takes the parsed `RestConfig` and an `encode` function. On a missing `value` key or a parse failure the source logs and then goes on to read fields of the nil configuration the parser returned, which panics; the model assumes a parsed configuration and does not model that path.
- Which record a delete event carries. The source's delete path reads the event's new object (controller.go:118), which the collection framework sets only for adds and updates. The model passes the deleted record explicitly in `Events.Event`, so `Events.Handle` and `Events.SecondDeleteSchedulesRecompute` describe the delete the code would make if that read yielded the removed record.
- The 15-second sleep and the goroutine that triggers recomputation. Each is modelled only as an entry of `recomputeAfter`.
- Kubernetes API calls are the `Events` store functions. Optimistic-concurrency conflicts and resource versions are not modelled. When a verb is marked as failing, the server error takes precedence over already-exists and not-found.
- Logging, including each validator's log message. The `Rejection` reason stands in for which message would be written.
- The stub functions `GetArgoConfigFromSecret`, `LoadRestConfigFromSecret` and `GetCluster`.
- The `ClusterKubeconfigReconciler` reconcile loop and its requeue delay. Its source is not part of this model.
- A locate function for the AWS provider: the source defines none.
- A nil control-plane reference: in Go it dereferences nil and panics. The model's `Cluster` always has one.
- JSON tag semantics of the `ClusterConfig` types (omitempty, embedding). They are mirrored as plain datatypes.
- The context argument of the validators. It serves only logging and the kubeadm lookup, which is a parameter.
