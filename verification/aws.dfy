/** The provider for clusters whose control plane is an
    AWSManagedControlPlane. Only validation exists: this provider defines no
    locate function. The owner-reference check compares the reference's
    `name` with the kind name "AWSManagedControlPlane"; it does not look at
    the reference's `kind`. */
module Aws {
  import opened Wrappers
  import opened Kube
  import opened Verdicts

  const SupportedAPIVersion := "controlplane.cluster.x-k8s.io/v1beta2"
  const ManagedControlPlaneKind := "AWSManagedControlPlane"
  const UserKubeconfigSuffix := "-user-kubeconfig"

  datatype ManagedControlPlane = ManagedControlPlane(name: string, namespace: string, apiVersion: string)

  /** The validation chain: version, type, owner count, owner name,
      namespace, secret name. */
  function Validate(a: ManagedControlPlane, secret: Secret): (r: Verdict)
    ensures r == Reject(UnsupportedAPIVersion(a.apiVersion)) <==> a.apiVersion != SupportedAPIVersion
    ensures r == Reject(NotClusterSecret) <==>
      a.apiVersion == SupportedAPIVersion && secret.secretType != ClusterSecretType
    ensures r == Reject(OwnerReferenceCount(|secret.ownerRefs|)) <==>
      a.apiVersion == SupportedAPIVersion && secret.secretType == ClusterSecretType
      && |secret.ownerRefs| != 1
    ensures r == Reject(NotOwnedByManagedControlPlane) <==>
      a.apiVersion == SupportedAPIVersion && secret.secretType == ClusterSecretType
      && |secret.ownerRefs| == 1 && secret.ownerRefs[0].name != ManagedControlPlaneKind
    ensures r == Reject(NamespaceMismatch) <==>
      a.apiVersion == SupportedAPIVersion && secret.secretType == ClusterSecretType
      && |secret.ownerRefs| == 1 && secret.ownerRefs[0].name == ManagedControlPlaneKind
      && secret.namespace != a.namespace
    ensures r == Accept <==> AllChecksPass(a, secret)
    ensures r.Reject? ==>
      r.reason in {UnsupportedAPIVersion(a.apiVersion), NotClusterSecret, OwnerReferenceCount(|secret.ownerRefs|),
                   NotOwnedByManagedControlPlane, NamespaceMismatch, NameMismatch}
  {
    if a.apiVersion != SupportedAPIVersion then Reject(UnsupportedAPIVersion(a.apiVersion))
    else if secret.secretType != ClusterSecretType then Reject(NotClusterSecret)
    else if |secret.ownerRefs| != 1 then Reject(OwnerReferenceCount(|secret.ownerRefs|))
    else if secret.ownerRefs[0].name != ManagedControlPlaneKind then Reject(NotOwnedByManagedControlPlane)
    else if secret.namespace != a.namespace then Reject(NamespaceMismatch)
    else if secret.name != a.name + UserKubeconfigSuffix then Reject(NameMismatch)
    else Accept
  }

  predicate IsKubeconfig(a: ManagedControlPlane, secret: Secret) {
    Validate(a, secret).Accept?
  }

  /** The six acceptance conditions as one conjunction. */
  predicate AllChecksPass(a: ManagedControlPlane, secret: Secret) {
    && a.apiVersion == SupportedAPIVersion
    && secret.secretType == ClusterSecretType
    && |secret.ownerRefs| == 1
    && secret.ownerRefs[0].name == ManagedControlPlaneKind
    && secret.namespace == a.namespace
    && secret.name == a.name + UserKubeconfigSuffix
  }

  /** Each check as a named condition, so that an evaluation order can be
      chosen freely. */
  datatype Check = VersionCheck | TypeCheck | OwnerCheck | NamespaceCheck | NameCheck

  /** Owner count and owner name form one condition: the name is read from
      the only reference. */
  predicate Holds(c: Check, a: ManagedControlPlane, secret: Secret) {
    match c
    case VersionCheck => a.apiVersion == SupportedAPIVersion
    case TypeCheck => secret.secretType == ClusterSecretType
    case OwnerCheck => |secret.ownerRefs| == 1 && secret.ownerRefs[0].name == ManagedControlPlaneKind
    case NamespaceCheck => secret.namespace == a.namespace
    case NameCheck => secret.name == a.name + UserKubeconfigSuffix
  }

  /** Runs checks in the given order, stopping at the first failure. */
  function RunInOrder(order: seq<Check>, a: ManagedControlPlane, secret: Secret): (ok: bool)
    ensures ok <==> forall i :: 0 <= i < |order| ==> Holds(order[i], a, secret)
  {
    if |order| == 0 then true
    else if !Holds(order[0], a, secret) then false
    else RunInOrder(order[1..], a, secret)
  }

  /** Check order does not matter: any ordering that runs all five checks
      accepts exactly the secrets the source's chain accepts. */
  lemma {:induction false} OrderIrrelevant(order: seq<Check>, a: ManagedControlPlane, secret: Secret)
    requires forall c: Check :: c in order
    ensures RunInOrder(order, a, secret) == IsKubeconfig(a, secret)
  {
    assert VersionCheck in order && TypeCheck in order && OwnerCheck in order;
    assert NamespaceCheck in order && NameCheck in order;
  }

  /** The owner reference the AWS provider's own test fixture uses: its
      `kind` is set and its `name` is empty. */
  const TestOwnerRef := OwnerReference(SupportedAPIVersion, ManagedControlPlaneKind, "", "uid", Some(true))

  /** As written, that fixture is rejected: the check reads the reference's
      name, which is empty, where the kind was evidently meant. */
  lemma OwnerKindAloneIsRejected(a: ManagedControlPlane, secret: Secret)
    requires a.apiVersion == SupportedAPIVersion && secret.secretType == ClusterSecretType
    requires secret.ownerRefs == [TestOwnerRef]
    requires KeyOf(secret) == NamespacedName(a.namespace, a.name + UserKubeconfigSuffix)
    ensures Validate(a, secret) == Reject(NotOwnedByManagedControlPlane)
  {
  }
}
