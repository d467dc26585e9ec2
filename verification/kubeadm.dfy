/** The provider for clusters whose control plane is a KubeadmControlPlane.
    The kubeconfig secret is named after the cluster and lives in the control
    plane's namespace; a candidate is accepted when it is a cluster secret,
    carries the cluster-name label, and is controlled by the control-plane
    object as it currently exists in the API server. */
module Kubeadm {
  import opened Wrappers
  import opened Kube
  import opened Verdicts
  import Strings

  /** The group-version of the kubeadm control-plane API this provider supports. */
  const SupportedAPIVersion := "controlplane.cluster.x-k8s.io/v1beta1"
  /** Cluster API's label naming the cluster a secret belongs to. */
  const ClusterNameLabel := "cluster.x-k8s.io/cluster-name"

  /** The provider record. The API client it embeds is not a field here: its
      one use, fetching the control-plane object, is the `lookup` parameter of
      `Validate`, mapping an object key to the found object's UID. */
  datatype ControlPlane = ControlPlane(
    controlPlaneName: string,
    clusterName: string,
    namespace: string,
    apiVersion: string)

  /** The key under which the control-plane object is fetched. */
  function ControlPlaneKey(k: ControlPlane): NamespacedName {
    NamespacedName(k.namespace, k.controlPlaneName)
  }

  /** Locate: the secret is `<cluster name>-kubeconfig` in the control
      plane's namespace. */
  function GetNamespacedName(k: ControlPlane): (r: NamespacedName)
    ensures r.namespace == k.namespace
    ensures Strings.HasSuffix(r.name, KubeconfigSuffix)
    ensures Strings.TrimSuffix(r.name, KubeconfigSuffix) == k.clusterName
  {
    Strings.TrimAfterAppend(k.clusterName, KubeconfigSuffix);
    NamespacedName(k.namespace, k.clusterName + KubeconfigSuffix)
  }

  /** The validation chain, stopping at the first failing check. */
  function Validate(k: ControlPlane, secret: Secret, lookup: NamespacedName -> Option<UID>): (r: Verdict)
    ensures r == Reject(UnsupportedAPIVersion(k.apiVersion)) <==> k.apiVersion != SupportedAPIVersion
    ensures r == Reject(NotClusterSecret) <==>
      k.apiVersion == SupportedAPIVersion && secret.secretType != ClusterSecretType
    ensures r == Reject(ClusterNameLabelMismatch) <==>
      k.apiVersion == SupportedAPIVersion && secret.secretType == ClusterSecretType
      && Lookup(secret.labels, ClusterNameLabel) != k.clusterName
    ensures r == Reject(ControlPlaneNotFound) <==>
      k.apiVersion == SupportedAPIVersion && secret.secretType == ClusterSecretType
      && Lookup(secret.labels, ClusterNameLabel) == k.clusterName
      && lookup(ControlPlaneKey(k)).None?
    ensures r == Accept <==>
      k.apiVersion == SupportedAPIVersion && secret.secretType == ClusterSecretType
      && Lookup(secret.labels, ClusterNameLabel) == k.clusterName
      && lookup(ControlPlaneKey(k)).Some? && IsControlledBy(secret, lookup(ControlPlaneKey(k)).value)
    ensures r.Reject? ==>
      r.reason in {UnsupportedAPIVersion(k.apiVersion), NotClusterSecret, ClusterNameLabelMismatch,
                   ControlPlaneNotFound, NotControlledByControlPlane}
  {
    if k.apiVersion != SupportedAPIVersion then Reject(UnsupportedAPIVersion(k.apiVersion))
    else if secret.secretType != ClusterSecretType then Reject(NotClusterSecret)
    else if Lookup(secret.labels, ClusterNameLabel) != k.clusterName then Reject(ClusterNameLabelMismatch)
    else
      match lookup(ControlPlaneKey(k))
      case None => Reject(ControlPlaneNotFound)
      case Some(uid) =>
        if !IsControlledBy(secret, uid) then Reject(NotControlledByControlPlane)
        else Accept
  }

  /** `IsKubeconfig`: the secret is this cluster's kubeadm kubeconfig. */
  predicate IsKubeconfig(k: ControlPlane, secret: Secret, lookup: NamespacedName -> Option<UID>) {
    Validate(k, secret, lookup).Accept?
  }

  /** The five acceptance conditions, stated independently of their order. */
  predicate AllChecksPass(k: ControlPlane, secret: Secret, lookup: NamespacedName -> Option<UID>) {
    && k.apiVersion == SupportedAPIVersion
    && secret.secretType == ClusterSecretType
    && ClusterNameLabel in secret.labels && secret.labels[ClusterNameLabel] == k.clusterName
    && lookup(ControlPlaneKey(k)).Some?
    && IsControlledBy(secret, lookup(ControlPlaneKey(k)).value)
  }

  /** A secret is accepted exactly when every condition holds; for a cluster
      with a non-empty name the label must actually be present. */
  lemma IsKubeconfigIffAllChecks(k: ControlPlane, secret: Secret, lookup: NamespacedName -> Option<UID>)
    requires k.clusterName != ""
    ensures IsKubeconfig(k, secret, lookup) <==> AllChecksPass(k, secret, lookup)
  {
  }

  /** A cluster named "" is matched by a secret with no cluster-name label at
      all, because a missing label reads as "". */
  lemma MissingLabelMatchesEmptyClusterName(k: ControlPlane, secret: Secret, lookup: NamespacedName -> Option<UID>)
    requires k.apiVersion == SupportedAPIVersion && k.clusterName == ""
    requires secret.secretType == ClusterSecretType && ClusterNameLabel !in secret.labels
    requires lookup(ControlPlaneKey(k)).Some? && IsControlledBy(secret, lookup(ControlPlaneKey(k)).value)
    ensures IsKubeconfig(k, secret, lookup)
  {
  }

  /** A secret with no controller reference, or whose first controller
      reference names another object, is rejected even when every other
      check passes. */
  lemma UncontrolledSecretRejected(k: ControlPlane, secret: Secret, lookup: NamespacedName -> Option<UID>)
    requires lookup(ControlPlaneKey(k)).Some?
    requires !IsControlledBy(secret, lookup(ControlPlaneKey(k)).value)
    ensures !IsKubeconfig(k, secret, lookup)
  {
  }

  /** Validation never looks at the secret's own name or namespace: a secret
      that is not at the located key is judged the same as one that is. */
  lemma ValidationIgnoresSecretKey(k: ControlPlane, secret: Secret, lookup: NamespacedName -> Option<UID>, name: string, namespace: string)
    ensures Validate(k, secret.(name := name, namespace := namespace), lookup) == Validate(k, secret, lookup)
  {
  }
}
