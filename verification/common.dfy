/** Names shared by the controller and its watch mapper: the controller's
    own name and the label and annotation keys built from it. */
module Common {
  const Slug := "superorbital.io"
  const ControllerName := "capargo"
  const KeyPrefix := ControllerName + "." + Slug + "/"

  const ControllerNameLabel := ControllerName + "." + Slug + "/controller-name"
  const ClusterNameAnnotation := ControllerName + "." + Slug + "/cluster-name"
  const ClusterNamespaceAnnotation := ControllerName + "." + Slug + "/cluster-namespace"

  /** The three keys live under the controller's own domain prefix. */
  lemma KeysShareControllerPrefix()
    ensures KeyPrefix == "capargo.superorbital.io/"
    ensures KeyPrefix <= ControllerNameLabel
    ensures KeyPrefix <= ClusterNameAnnotation
    ensures KeyPrefix <= ClusterNamespaceAnnotation
  {
  }

  /** The label key is spelled out, and the three keys are pairwise distinct,
      so no annotation can stand in for the label or for each other. */
  lemma KeysDistinct()
    ensures ControllerName == "capargo"
    ensures ControllerNameLabel == "capargo.superorbital.io/controller-name"
    ensures ControllerNameLabel != ClusterNameAnnotation
    ensures ControllerNameLabel != ClusterNamespaceAnnotation
    ensures ClusterNameAnnotation != ClusterNamespaceAnnotation
  {
    var spelled := "capargo.superorbital.io/controller-name";
    assert |ControllerNameLabel| == |spelled|;
    forall i | 0 <= i < |spelled|
      ensures ControllerNameLabel[i] == spelled[i]
    {
    }
  }
}
