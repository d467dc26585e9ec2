/** The registration payload's credential record, as the GitOps controller
    expects it: a subset of a client rest configuration. Nil-able fields are
    Options; byte slices are byte sequences. */
module ClusterTypes {
  import opened Wrappers
  import opened Kube

  datatype TLSClientConfig = TLSClientConfig(
    insecure: bool,
    serverName: string,
    certData: seq<byte>,
    keyData: seq<byte>,
    caData: seq<byte>)

  datatype AWSAuthConfig = AWSAuthConfig(clusterName: string, roleARN: string)

  datatype ExecProviderConfig = ExecProviderConfig(
    command: string,
    args: seq<string>,
    env: map<string, string>,
    apiVersion: string,
    installHint: string)

  datatype ClusterConfig = ClusterConfig(
    username: string,
    password: string,
    bearerToken: string,
    tlsClientConfig: TLSClientConfig,
    awsAuthConfig: Option<AWSAuthConfig>,
    execProviderConfig: Option<ExecProviderConfig>)
}
