/** Synthesis and apply together: a kubeconfig secret whose endpoint changes
    is re-synthesised and re-applied into the same registration record. */
module Sync {
  import opened Kube
  import Registration
  import ClusterTypes
  import Credentials
  import Events

  /** The record synthesised from a re-read kubeconfig replaces the earlier
      one at the same key, whether the change arrives as an update event (an
      existing output changed) or as an add: the endpoint is the new host,
      the credential payload is the new one, and no second record appears. */
  lemma EndpointChangeUpdatesInPlace(
    store: Events.Store, secret: Secret, argoNamespace: string,
    before: Credentials.RestConfig, after: Credentials.RestConfig,
    encode: ClusterTypes.ClusterConfig -> string, kind: Events.EventKind)
    requires Registration.IsKubeconfigSecret(secret)
    requires kind == Events.EventUpdate || kind == Events.EventAdd
    requires var prev := Registration.BuildArgoSecret(secret, true, argoNamespace, before, encode).value;
      KeyOf(prev) in store && store[KeyOf(prev)] == prev
    ensures var prev := Registration.BuildArgoSecret(secret, true, argoNamespace, before, encode).value;
      var rec := Registration.BuildArgoSecret(secret, true, argoNamespace, after, encode).value;
      var e := Events.Handle(store, Events.Event(kind, rec), Events.NoFaults);
      && KeyOf(rec) == KeyOf(prev)
      && e.store.Keys == store.Keys
      && e.recomputeAfter == []
      && e.store[KeyOf(rec)].stringData[Registration.ServerKey] == after.host
      && e.store[KeyOf(rec)].stringData[Registration.ConfigKey]
         == encode(Credentials.BuildClusterConfig(after))
  {
  }
}
