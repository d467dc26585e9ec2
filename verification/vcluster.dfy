/** The provider for clusters whose control plane is a vcluster. The
    kubeconfig secret is `<name>-kubeconfig` in the vcluster's namespace, and
    validation checks only that key: vcluster sets no owner references. */
module VCluster {
  import opened Kube
  import opened Verdicts
  import Strings

  const SupportedAPIVersion := "infrastructure.cluster.x-k8s.io/v1alpha1"

  datatype VCluster = VCluster(name: string, namespace: string, apiVersion: string)

  /** Locate: `<name>-kubeconfig` in the vcluster's namespace. */
  function GetNamespacedName(v: VCluster): (r: NamespacedName)
    ensures r.namespace == v.namespace
    ensures Strings.HasSuffix(r.name, KubeconfigSuffix)
    ensures Strings.TrimSuffix(r.name, KubeconfigSuffix) == v.name
  {
    Strings.TrimAfterAppend(v.name, KubeconfigSuffix);
    NamespacedName(v.namespace, v.name + KubeconfigSuffix)
  }

  /** The validation chain: API version, then namespace, then name. */
  function Validate(v: VCluster, secret: Secret): (r: Verdict)
    ensures r == Reject(UnsupportedAPIVersion(v.apiVersion)) <==> v.apiVersion != SupportedAPIVersion
    ensures r == Reject(NamespaceMismatch) <==>
      v.apiVersion == SupportedAPIVersion && secret.namespace != v.namespace
    ensures r == Reject(NameMismatch) <==>
      v.apiVersion == SupportedAPIVersion && secret.namespace == v.namespace
      && secret.name != v.name + KubeconfigSuffix
    ensures r.Reject? ==> r.reason in {UnsupportedAPIVersion(v.apiVersion), NamespaceMismatch, NameMismatch}
  {
    if v.apiVersion != SupportedAPIVersion then Reject(UnsupportedAPIVersion(v.apiVersion))
    else if secret.namespace != v.namespace then Reject(NamespaceMismatch)
    else if secret.name != v.name + KubeconfigSuffix then Reject(NameMismatch)
    else Accept
  }

  predicate IsKubeconfig(v: VCluster, secret: Secret) {
    Validate(v, secret).Accept?
  }

  /** Validate and locate agree: under the supported version a secret is
      accepted exactly when it sits at the located key. */
  lemma IsKubeconfigIffAtLocatedKey(v: VCluster, secret: Secret)
    ensures IsKubeconfig(v, secret) <==> v.apiVersion == SupportedAPIVersion && KeyOf(secret) == GetNamespacedName(v)
  {
  }

  /** Type, labels, annotations, owner references and payload play no part. */
  lemma ValidationIgnoresEverythingButKey(v: VCluster, secret: Secret, other: Secret)
    requires KeyOf(other) == KeyOf(secret)
    ensures Validate(v, other) == Validate(v, secret)
  {
  }
}
