/** Registration-record synthesis: which secrets the controller watches, and
    the GitOps cluster secret it derives from one of them. */
module Registration {
  import opened Wrappers
  import opened Kube
  import Strings
  import ClusterTypes
  import Credentials

  const SecretTypeLabel := "argocd.argoproj.io/secret-type"
  const SecretTypeCluster := "cluster"
  /** The ownership label the derived record carries: the literal key
      "controller", not the shared controller-name label key. */
  const OwnerLabel := "controller"
  const OwnerLabelValue := "capargo"

  const NameKey := "name"
  const ServerKey := "server"
  const ConfigKey := "config"

  /** The watch filter: only secrets named `*-kubeconfig` are admitted. */
  predicate IsKubeconfigSecret(s: Secret): (b: bool)
    ensures b <==> exists stem :: stem + KubeconfigSuffix == s.name
  {
    if Strings.HasSuffix(s.name, KubeconfigSuffix) then
      var stem := Strings.TrimSuffix(s.name, KubeconfigSuffix);
      assert stem + KubeconfigSuffix == s.name;
      true
    else
      assert forall stem :: stem + KubeconfigSuffix != s.name by {
        forall stem | stem + KubeconfigSuffix == s.name
          ensures false
        {
          Strings.TrimAfterAppend(stem, KubeconfigSuffix);
        }
      }
      false
  }

  /** The cluster name a kubeconfig secret stands for. */
  function ClusterNameOf(s: Secret): (name: string)
    ensures IsKubeconfigSecret(s) ==> name + KubeconfigSuffix == s.name
  {
    Strings.TrimSuffix(s.name, KubeconfigSuffix)
  }

  /** The derived record for an admitted secret. `clusterFound` is whether a
      Cluster API cluster was fetched, `config` is the secret's parsed
      kubeconfig and `encode` serialises the credential record to JSON. */
  function BuildArgoSecret(
    secret: Secret,
    clusterFound: bool,
    argoNamespace: string,
    config: Credentials.RestConfig,
    encode: ClusterTypes.ClusterConfig -> string
  ): (r: Option<Secret>)
    ensures r.None? <==> !clusterFound
    ensures r.Some? ==> IsKubeconfigSecret(secret) ==> r.value.name + KubeconfigSuffix == secret.name
    ensures r.Some? ==> r.value.namespace == argoNamespace
    ensures r.Some? ==> r.value.labels == map[SecretTypeLabel := SecretTypeCluster, OwnerLabel := OwnerLabelValue]
    ensures r.Some? ==> r.value.annotations == map[]
    ensures r.Some? ==> r.value.data == map[] && r.value.ownerRefs == [] && r.value.secretType == ""
    ensures r.Some? ==> r.value.stringData.Keys == {NameKey, ServerKey, ConfigKey}
    ensures r.Some? ==> r.value.stringData[NameKey] == r.value.name
    ensures r.Some? ==> r.value.stringData[ServerKey] == config.host
    ensures r.Some? ==> r.value.stringData[ConfigKey] == encode(Credentials.BuildClusterConfig(config))
  {
    if !clusterFound then None
    else
      var clusterName := ClusterNameOf(secret);
      Some(Secret(
        name := clusterName,
        namespace := argoNamespace,
        secretType := "",
        labels := map[SecretTypeLabel := SecretTypeCluster, OwnerLabel := OwnerLabelValue],
        annotations := map[],
        ownerRefs := [],
        data := map[],
        stringData := map[
          NameKey := clusterName,
          ServerKey := config.host,
          ConfigKey := encode(Credentials.BuildClusterConfig(config))]))
  }

  /** Admitted secrets with distinct names derive records at distinct keys,
      for instance any two secrets of one watched namespace. */
  lemma DerivedNamesInjective(
    s1: Secret, s2: Secret, argoNamespace: string,
    c1: Credentials.RestConfig, c2: Credentials.RestConfig,
    encode: ClusterTypes.ClusterConfig -> string)
    requires IsKubeconfigSecret(s1) && IsKubeconfigSecret(s2) && s1.name != s2.name
    ensures var r1, r2 := BuildArgoSecret(s1, true, argoNamespace, c1, encode), BuildArgoSecret(s2, true, argoNamespace, c2, encode);
      KeyOf(r1.value) != KeyOf(r2.value)
  {
  }

  /** The namespace of the source secret is dropped: two admitted secrets
      with the same name in different namespaces derive records at the same
      key, so with every namespace watched one overwrites the other. */
  lemma CrossNamespaceCollision(
    s1: Secret, s2: Secret, argoNamespace: string,
    c1: Credentials.RestConfig, c2: Credentials.RestConfig,
    encode: ClusterTypes.ClusterConfig -> string)
    requires IsKubeconfigSecret(s1) && s1.name == s2.name && s1.namespace != s2.namespace
    ensures var r1, r2 := BuildArgoSecret(s1, true, argoNamespace, c1, encode), BuildArgoSecret(s2, true, argoNamespace, c2, encode);
      KeyOf(r1.value) == KeyOf(r2.value)
  {
  }

  /** A secret named `<cluster>-kubeconfig` yields a record named `<cluster>`. */
  lemma DerivedNameIsClusterName(
    cluster: string, secret: Secret, argoNamespace: string,
    config: Credentials.RestConfig, encode: ClusterTypes.ClusterConfig -> string)
    requires secret.name == cluster + KubeconfigSuffix
    ensures BuildArgoSecret(secret, true, argoNamespace, config, encode).value.name == cluster
  {
  }
}
