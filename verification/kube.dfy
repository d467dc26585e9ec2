/** The slice of the Kubernetes object model the controller reads and writes:
    secrets with their metadata, owner references, object references and
    Cluster API clusters. Only the fields the core consults are kept. */
module Kube {
  import opened Wrappers

  newtype byte = b: int | 0 <= b < 256

  /** Cluster API's secret type for cluster secrets. */
  const ClusterSecretType := "cluster.x-k8s.io/secret"
  /** Cluster API names a cluster's kubeconfig secret `<cluster>-kubeconfig`. */
  const KubeconfigSuffix := "-kubeconfig"

  /** An object UID. */
  type UID = string

  /** `types.NamespacedName`. Its zero value has both parts empty. */
  datatype NamespacedName = NamespacedName(namespace: string, name: string)

  const EmptyName := NamespacedName("", "")

  /** `metav1.OwnerReference`. The Go field `Controller` is an optional `bool`; an unset
      value is `None`. */
  datatype OwnerReference = OwnerReference(
    apiVersion: string,
    kind: string,
    name: string,
    uid: UID,
    controller: Option<bool>)

  /** `corev1.Secret`, reduced to the metadata and payload the core uses. */
  datatype Secret = Secret(
    name: string,
    namespace: string,
    secretType: string,
    labels: map<string, string>,
    annotations: map<string, string>,
    ownerRefs: seq<OwnerReference>,
    data: map<string, seq<byte>>,
    stringData: map<string, string>)

  /** `corev1.ObjectReference`, as found in a cluster's control-plane reference. */
  datatype ObjectReference = ObjectReference(
    kind: string,
    apiVersion: string,
    name: string,
    namespace: string)

  /** `capiv1beta1.Cluster`: its own identity and its control-plane reference. */
  datatype Cluster = Cluster(name: string, namespace: string, controlPlaneRef: ObjectReference)

  function KeyOf(s: Secret): NamespacedName {
    NamespacedName(s.namespace, s.name)
  }

  /** A Go map read `m[k]`: a missing key reads as the zero value "". */
  function Lookup(m: map<string, string>, k: string): (v: string)
    ensures k in m ==> v == m[k]
    ensures k !in m ==> v == ""
  {
    if k in m then m[k] else ""
  }

  predicate IsControllerRef(ref: OwnerReference) {
    ref.controller == Some(true)
  }

  /** The position of the first owner reference marked as controller, as
      apimachinery's `GetControllerOf` scans for it; None when there is none. */
  function ControllerIndex(refs: seq<OwnerReference>): (r: Option<nat>)
    ensures r.Some? ==> r.value < |refs| && IsControllerRef(refs[r.value])
    ensures r.Some? ==> forall j :: 0 <= j < r.value ==> !IsControllerRef(refs[j])
    ensures r.None? <==> forall j :: 0 <= j < |refs| ==> !IsControllerRef(refs[j])
  {
    if |refs| == 0 then None
    else if IsControllerRef(refs[0]) then Some(0)
    else
      match ControllerIndex(refs[1..])
      case None => None
      case Some(i) => Some(i + 1)
  }

  /** apimachinery's `IsControlledBy(secret, owner)`: the secret has a
      controller reference and the first one carries the owner's UID. Other
      owner references, controller or not, play no part. */
  predicate IsControlledBy(s: Secret, owner: UID): (b: bool)
    ensures b ==> exists i :: 0 <= i < |s.ownerRefs| && IsControllerRef(s.ownerRefs[i]) && s.ownerRefs[i].uid == owner
    ensures (forall i :: 0 <= i < |s.ownerRefs| ==> !IsControllerRef(s.ownerRefs[i])) ==> !b
  {
    match ControllerIndex(s.ownerRefs)
    case None => false
    case Some(i) => s.ownerRefs[i].uid == owner
  }

  /** Controlled-by holds exactly when some controller reference carries the
      owner's UID and no earlier reference is a controller. */
  lemma IsControlledByCharacterization(s: Secret, owner: UID)
    ensures IsControlledBy(s, owner) <==>
      exists i :: 0 <= i < |s.ownerRefs| && IsControllerRef(s.ownerRefs[i]) && s.ownerRefs[i].uid == owner
        && (forall j :: 0 <= j < i ==> !IsControllerRef(s.ownerRefs[j]))
  {
  }
}
