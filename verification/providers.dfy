/** Provider resolution: a cluster's control-plane reference kind selects
    one of three closed provider variants, and the two public entry points
    (is this secret the cluster's kubeconfig, where is it) dispatch on it.
    Go returns a value together with an error; both halves are kept. */
module Providers {
  import opened Wrappers
  import opened Kube
  import Kubeadm
  import Aws
  import VCluster

  const KubeadmKind := "KubeadmControlPlane"
  const AwsManagedKind := "AWSManagedControlPlane"
  const VClusterKind := "VCluster"

  datatype Provider =
    | KubeadmProvider(kubeadm: Kubeadm.ControlPlane)
    | AwsProvider(aws: Aws.ManagedControlPlane)
    | VClusterProvider(vcluster: VCluster.VCluster)

  datatype ProviderError =
    | UnsupportedKind(kind: string)
      /** The AWS variant defines no locate function; the Go dispatch assumes
          one, so that package does not build as written. */
    | LocateUndefined(kind: string)

  /** `getProvider`: dispatch on the control-plane reference's kind by exact
      string comparison. */
  function GetProvider(cluster: Cluster): (r: Result<Provider, ProviderError>)
    ensures var ref := cluster.controlPlaneRef;
      ref.kind == KubeadmKind <==>
        r == Success(KubeadmProvider(Kubeadm.ControlPlane(ref.name, cluster.name, ref.namespace, ref.apiVersion)))
    ensures var ref := cluster.controlPlaneRef;
      ref.kind == AwsManagedKind <==>
        r == Success(AwsProvider(Aws.ManagedControlPlane(ref.name, ref.namespace, ref.apiVersion)))
    ensures var ref := cluster.controlPlaneRef;
      ref.kind == VClusterKind <==>
        r == Success(VClusterProvider(VCluster.VCluster(ref.name, ref.namespace, ref.apiVersion)))
    ensures r.Failure? <==> cluster.controlPlaneRef.kind !in {KubeadmKind, AwsManagedKind, VClusterKind}
    ensures r.Failure? ==> r.error == UnsupportedKind(cluster.controlPlaneRef.kind)
  {
    var ref := cluster.controlPlaneRef;
    if ref.kind == KubeadmKind then
      Success(KubeadmProvider(Kubeadm.ControlPlane(
        controlPlaneName := ref.name, clusterName := cluster.name,
        namespace := ref.namespace, apiVersion := ref.apiVersion)))
    else if ref.kind == AwsManagedKind then
      Success(AwsProvider(Aws.ManagedControlPlane(ref.name, ref.namespace, ref.apiVersion)))
    else if ref.kind == VClusterKind then
      Success(VClusterProvider(VCluster.VCluster(ref.name, ref.namespace, ref.apiVersion)))
    else
      Failure(UnsupportedKind(ref.kind))
  }

  /** A provider's validation; `lookup` fetches the kubeadm control plane. */
  predicate ProviderIsKubeconfig(p: Provider, secret: Secret, lookup: NamespacedName -> Option<UID>) {
    match p
    case KubeadmProvider(k) => Kubeadm.IsKubeconfig(k, secret, lookup)
    case AwsProvider(a) => Aws.IsKubeconfig(a, secret)
    case VClusterProvider(v) => VCluster.IsKubeconfig(v, secret)
  }

  /** A provider's locate function, where it has one. */
  function ProviderNamespacedName(p: Provider): Result<NamespacedName, ProviderError> {
    match p
    case KubeadmProvider(k) => Success(Kubeadm.GetNamespacedName(k))
    case AwsProvider(_) => Failure(LocateUndefined(AwsManagedKind))
    case VClusterProvider(v) => Success(VCluster.GetNamespacedName(v))
  }

  /** Go's `(bool, error)` pair. */
  datatype Validation = Validation(isKubeconfig: bool, err: Option<ProviderError>)

  /** `IsCapiKubeconfig`: an unsupported kind gives (false, error); otherwise
      the provider's verdict and no error. */
  function IsCapiKubeconfig(secret: Secret, cluster: Cluster, lookup: NamespacedName -> Option<UID>): (r: Validation)
    ensures r.err.Some? ==> !r.isKubeconfig
    ensures r.err.Some? <==> GetProvider(cluster).Failure?
    ensures r.err.Some? ==> r.err.value == UnsupportedKind(cluster.controlPlaneRef.kind)
    ensures GetProvider(cluster).Success? ==>
      r.isKubeconfig == ProviderIsKubeconfig(GetProvider(cluster).value, secret, lookup)
  {
    match GetProvider(cluster)
    case Failure(e) => Validation(false, Some(e))
    case Success(p) => Validation(ProviderIsKubeconfig(p, secret, lookup), None)
  }

  /** Go's `(types.NamespacedName, error)` pair. */
  datatype Location = Location(name: NamespacedName, err: Option<ProviderError>)

  /** `GetCapiKubeconfigNamespacedName`: on error the name is the empty zero
      value; otherwise it is the provider's locate result. */
  function GetCapiKubeconfigNamespacedName(cluster: Cluster): (r: Location)
    ensures r.err.Some? ==> r.name == EmptyName
    ensures GetProvider(cluster).Failure? ==> r.err == Some(UnsupportedKind(cluster.controlPlaneRef.kind))
    ensures var ref := cluster.controlPlaneRef;
      ref.kind == KubeadmKind ==> r == Location(NamespacedName(ref.namespace, cluster.name + KubeconfigSuffix), None)
    ensures var ref := cluster.controlPlaneRef;
      ref.kind == VClusterKind ==> r == Location(NamespacedName(ref.namespace, ref.name + KubeconfigSuffix), None)
    ensures cluster.controlPlaneRef.kind == AwsManagedKind ==>
      r == Location(EmptyName, Some(LocateUndefined(AwsManagedKind)))
  {
    match GetProvider(cluster)
    case Failure(e) => Location(EmptyName, Some(e))
    case Success(p) =>
      match ProviderNamespacedName(p)
      case Failure(e) => Location(EmptyName, Some(e))
      case Success(nn) => Location(nn, None)
  }

  /** End to end for a vcluster: a secret at the located key is recognised
      exactly when the vcluster's API version is the supported one. */
  lemma VClusterLocatedSecretValidates(cluster: Cluster, secret: Secret, lookup: NamespacedName -> Option<UID>)
    requires cluster.controlPlaneRef.kind == VClusterKind
    requires KeyOf(secret) == GetCapiKubeconfigNamespacedName(cluster).name
    ensures IsCapiKubeconfig(secret, cluster, lookup) ==
      Validation(cluster.controlPlaneRef.apiVersion == VCluster.SupportedAPIVersion, None)
  {
  }

  /** End to end for kubeadm: the located secret is named after the cluster,
      yet validation accepts or rejects it on type, label and controller
      alone, the same as any other secret carrying that metadata. */
  lemma KubeadmVerdictIndependentOfLocation(cluster: Cluster, secret: Secret, lookup: NamespacedName -> Option<UID>)
    requires cluster.controlPlaneRef.kind == KubeadmKind
    ensures var nn := GetCapiKubeconfigNamespacedName(cluster).name;
      IsCapiKubeconfig(secret.(name := nn.name, namespace := nn.namespace), cluster, lookup)
        == IsCapiKubeconfig(secret, cluster, lookup)
  {
  }
}
