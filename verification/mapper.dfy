/** The watch mapper: a change to a secret carrying the controller-name
    label enqueues a reconcile request for the cluster its annotations name. */
module Mapper {
  import opened Kube
  import Common
  import Registration
  import ClusterTypes
  import Credentials

  /** `reconcile.Request`: the key of the cluster to reconcile. */
  datatype Request = Request(key: NamespacedName)

  /** The map function: nothing unless the label key is present (its value
      is not consulted), nothing unless both annotations are present, and
      otherwise one request for the named cluster. */
  function MapSecretToRequests(s: Secret): (r: seq<Request>)
    ensures |r| <= 1
    ensures Common.ControllerNameLabel !in s.labels ==> r == []
    ensures |r| == 1 <==>
      Common.ControllerNameLabel in s.labels
      && Common.ClusterNameAnnotation in s.annotations
      && Common.ClusterNamespaceAnnotation in s.annotations
    ensures |r| == 1 ==>
      r[0].key.name == s.annotations[Common.ClusterNameAnnotation]
      && r[0].key.namespace == s.annotations[Common.ClusterNamespaceAnnotation]
  {
    if Common.ControllerNameLabel in s.labels then
      if Common.ClusterNameAnnotation !in s.annotations then []
      else if Common.ClusterNamespaceAnnotation !in s.annotations then []
      else
        var name := s.annotations[Common.ClusterNameAnnotation];
        var namespace := s.annotations[Common.ClusterNamespaceAnnotation];
        [Request(NamespacedName(namespace, name))]
    else []
  }

  /** Only the label's presence matters: any value maps the same way. */
  lemma LabelValueIgnored(s: Secret, value: string)
    requires Common.ControllerNameLabel in s.labels
    ensures MapSecretToRequests(s.(labels := s.labels[Common.ControllerNameLabel := value]))
      == MapSecretToRequests(s)
  {
  }

  /** The record the controller synthesises is never mapped back to a
      request: it labels itself with the key "controller", not the shared
      controller-name label, and carries no annotations. */
  lemma SynthesizedRecordNeverMapped(
    secret: Secret, argoNamespace: string,
    config: Credentials.RestConfig, encode: ClusterTypes.ClusterConfig -> string)
    ensures var r := Registration.BuildArgoSecret(secret, true, argoNamespace, config, encode);
      MapSecretToRequests(r.value) == []
  {
  }
}
