/** Credential normalisation: a parsed client rest configuration becomes the
    registration payload's `ClusterConfig`. TLS trust is forced to insecure
    with no CA bundle, basic auth is kept only with a user name, and an exec
    plugin's environment list becomes a map. */
module Credentials {
  import opened Wrappers
  import opened Kube
  import opened ClusterTypes

  /** One entry of an exec plugin's environment list. */
  datatype ExecEnvVar = ExecEnvVar(name: string, value: string)

  datatype ExecConfig = ExecConfig(
    command: string,
    args: seq<string>,
    env: seq<ExecEnvVar>,
    apiVersion: string,
    installHint: string)

  datatype RestTLSConfig = RestTLSConfig(
    insecure: bool,
    serverName: string,
    certData: seq<byte>,
    keyData: seq<byte>,
    caData: seq<byte>)

  /** The fields of a client rest configuration the normalisation reads. */
  datatype RestConfig = RestConfig(
    host: string,
    username: string,
    password: string,
    bearerToken: string,
    tlsClientConfig: RestTLSConfig,
    execProvider: Option<ExecConfig>)

  /** `mapEnv`: fold the environment list into a map, a later entry
      overwriting an earlier one with the same name. */
  function MapEnv(env: seq<ExecEnvVar>): (m: map<string, string>)
    ensures m.Keys == set i | 0 <= i < |env| :: env[i].name
    ensures forall i :: 0 <= i < |env| && (forall j :: i < j < |env| ==> env[j].name != env[i].name) ==>
      m[env[i].name] == env[i].value
  {
    if |env| == 0 then map[]
    else
      var init := env[..|env| - 1];
      var last := env[|env| - 1];
      var m := MapEnv(init)[last.name := last.value];
      assert forall i :: 0 <= i < |init| ==> init[i] == env[i];
      m
  }

  /** Appending an entry sets that one name and leaves the others alone. */
  lemma MapEnvAppend(env: seq<ExecEnvVar>, e: ExecEnvVar)
    ensures MapEnv(env + [e]) == MapEnv(env)[e.name := e.value]
  {
    assert (env + [e])[..|env|] == env;
  }

  /** `buildClusterConfigFromRestConfig`. */
  function BuildClusterConfig(config: RestConfig): (cc: ClusterConfig)
    ensures config.username != "" ==> cc.username == config.username && cc.password == config.password
    ensures config.username == "" ==> cc.username == "" && cc.password == ""
    ensures cc.bearerToken == config.bearerToken
    ensures cc.tlsClientConfig.insecure && cc.tlsClientConfig.caData == []
    ensures cc.tlsClientConfig.serverName == config.tlsClientConfig.serverName
    ensures cc.tlsClientConfig.certData == config.tlsClientConfig.certData
    ensures cc.tlsClientConfig.keyData == config.tlsClientConfig.keyData
    ensures cc.awsAuthConfig.None?
    ensures cc.execProviderConfig.Some? <==> config.execProvider.Some?
    ensures config.execProvider.Some? ==>
      var e, p := config.execProvider.value, cc.execProviderConfig.value;
      p.command == e.command && p.args == e.args && p.apiVersion == e.apiVersion
      && p.installHint == e.installHint && p.env == MapEnv(e.env)
  {
    var basic := if config.username != "" then (config.username, config.password) else ("", "");
    var token := if config.bearerToken != "" then config.bearerToken else "";
    var tls := TLSClientConfig(
      insecure := true,
      serverName := config.tlsClientConfig.serverName,
      certData := config.tlsClientConfig.certData,
      keyData := config.tlsClientConfig.keyData,
      caData := []);
    var exec := match config.execProvider
      case None => None
      case Some(e) => Some(ExecProviderConfig(e.command, e.args, MapEnv(e.env), e.apiVersion, e.installHint));
    ClusterConfig(basic.0, basic.1, token, tls, None, exec)
  }

  /** The shape every normalised record has: insecure TLS without a CA
      bundle, no AWS authentication, and no password without a user name. */
  predicate Normalized(cc: ClusterConfig) {
    && cc.tlsClientConfig.insecure
    && cc.tlsClientConfig.caData == []
    && cc.awsAuthConfig.None?
    && (cc.username == "" ==> cc.password == "")
  }

  /** Every output of the normalisation has the normalised shape. */
  lemma BuildIsNormalized(config: RestConfig)
    ensures Normalized(BuildClusterConfig(config))
  {
  }

  /** Every map is the fold of some environment list: one listing each
      entry once. */
  lemma {:induction false} EnvListFor(m: map<string, string>) returns (env: seq<ExecEnvVar>)
    ensures MapEnv(env) == m
    decreases |m|
  {
    if |m| == 0 {
      env := [];
    } else {
      var k :| k in m;
      var rest := EnvListFor(m - {k});
      env := rest + [ExecEnvVar(k, m[k])];
      MapEnvAppend(rest, ExecEnvVar(k, m[k]));
      assert (m - {k})[k := m[k]] == m;
    }
  }

  /** The normalised shape is exactly the image of the normalisation: every
      record of that shape is produced from some rest configuration. */
  lemma NormalizedIsReachable(cc: ClusterConfig) returns (config: RestConfig)
    requires Normalized(cc)
    ensures BuildClusterConfig(config) == cc
  {
    var exec: Option<ExecConfig> := None;
    if cc.execProviderConfig.Some? {
      var p := cc.execProviderConfig.value;
      var env := EnvListFor(p.env);
      exec := Some(ExecConfig(p.command, p.args, env, p.apiVersion, p.installHint));
    }
    var tls := cc.tlsClientConfig;
    config := RestConfig(
      host := "",
      username := cc.username,
      password := cc.password,
      bearerToken := cc.bearerToken,
      tlsClientConfig := RestTLSConfig(false, tls.serverName, tls.certData, tls.keyData, tls.caData),
      execProvider := exec);
  }
}
