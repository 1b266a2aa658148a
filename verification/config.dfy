/** The configuration tree decoded from the YAML descriptor (struct.go).

    Each nested Go struct behind a pointer becomes a named record wrapped in
    an `Option`; each `*int`, `*bool` or `*string` leaf becomes an `Option`.
    The accessors at the end flatten the nil-checks that connect.go performs
    before it reads a leaf, so that contracts elsewhere can name a leaf
    directly. */
module Config {
  import opened Options

  /** policies.base.timeoutMs */
  datatype BaseTimeouts = BaseTimeouts(connect: Option<int>, idle: Option<int>, login: Option<int>)

  /** policies.base */
  datatype BasePolicyConfig = BasePolicyConfig(timeoutMs: Option<BaseTimeouts>)

  /** policies.{read,write,scan,query}.timeoutMs */
  datatype TxTimeouts = TxTimeouts(socket: Option<int>, total: Option<int>, sleepBetweenRetries: Option<int>)

  /** policies.{read,write,scan,query} */
  datatype TxPolicyConfig = TxPolicyConfig(timeoutMs: Option<TxTimeouts>, maxRetries: Option<int>)

  /** policies.info */
  datatype InfoPolicyConfig = InfoPolicyConfig(timeoutMs: Option<int>)

  /** policies */
  datatype PoliciesConfig = PoliciesConfig(
    base: Option<BasePolicyConfig>,
    read: Option<TxPolicyConfig>,
    write: Option<TxPolicyConfig>,
    scan: Option<TxPolicyConfig>,
    query: Option<TxPolicyConfig>,
    info: Option<InfoPolicyConfig>)

  /** security */
  datatype SecurityConfig = SecurityConfig(
    username: Option<string>,
    password: Option<string>,
    authModeExternal: Option<bool>)

  /** tls */
  datatype TlsSettings = TlsSettings(
    caFile: Option<string>,
    certFile: Option<string>,
    keyFile: Option<string>,
    serverName: Option<string>,
    insecureSkipVerify: Option<bool>)

  /** The whole descriptor (`AerospikeConfig`). */
  datatype AerospikeConfig = AerospikeConfig(
    host: Option<string>,
    port: Option<int>,
    connectionQueueSize: Option<int>,
    limitConnectionsToQueueSize: Option<bool>,
    clusterName: Option<string>,
    maxConnectAttempts: Option<int>,
    maxConnectRetryTimeMs: Option<int>,
    connectRetrySleepMs: Option<int>,
    policies: Option<PoliciesConfig>,
    security: Option<SecurityConfig>,
    tls: Option<TlsSettings>)

  /** The configuration with every field absent. */
  const Empty := AerospikeConfig(None, None, None, None, None, None, None, None, None, None, None)

  // Flattened views of nested leaves: present exactly when every pointer on
  // the path to the leaf is non-nil.

  function ConnectTimeoutMs(c: AerospikeConfig): Option<int> {
    if c.policies.Some? && c.policies.value.base.Some? && c.policies.value.base.value.timeoutMs.Some?
    then c.policies.value.base.value.timeoutMs.value.connect else None
  }

  function IdleTimeoutMs(c: AerospikeConfig): Option<int> {
    if c.policies.Some? && c.policies.value.base.Some? && c.policies.value.base.value.timeoutMs.Some?
    then c.policies.value.base.value.timeoutMs.value.idle else None
  }

  function LoginTimeoutMs(c: AerospikeConfig): Option<int> {
    if c.policies.Some? && c.policies.value.base.Some? && c.policies.value.base.value.timeoutMs.Some?
    then c.policies.value.base.value.timeoutMs.value.login else None
  }

  function Username(c: AerospikeConfig): Option<string> {
    if c.security.Some? then c.security.value.username else None
  }

  function Password(c: AerospikeConfig): Option<string> {
    if c.security.Some? then c.security.value.password else None
  }

  function ExternalAuthFlag(c: AerospikeConfig): Option<bool> {
    if c.security.Some? then c.security.value.authModeExternal else None
  }

  /** A username or a password is configured. */
  predicate HasCredentials(c: AerospikeConfig) {
    Username(c).Some? || Password(c).Some?
  }

  /** The four operation kinds that share the transaction-policy shape. */
  datatype OpKind = Read | Write | Scan | Query

  /** The policy section of one operation kind, if configured. */
  function TxConfig(c: AerospikeConfig, k: OpKind): Option<TxPolicyConfig> {
    if c.policies.None? then None
    else match k
      case Read => c.policies.value.read
      case Write => c.policies.value.write
      case Scan => c.policies.value.scan
      case Query => c.policies.value.query
  }

  function TxMaxRetries(t: Option<TxPolicyConfig>): Option<int> {
    if t.Some? then t.value.maxRetries else None
  }

  function TxSocketMs(t: Option<TxPolicyConfig>): Option<int> {
    if t.Some? && t.value.timeoutMs.Some? then t.value.timeoutMs.value.socket else None
  }

  function TxTotalMs(t: Option<TxPolicyConfig>): Option<int> {
    if t.Some? && t.value.timeoutMs.Some? then t.value.timeoutMs.value.total else None
  }

  function TxSleepMs(t: Option<TxPolicyConfig>): Option<int> {
    if t.Some? && t.value.timeoutMs.Some? then t.value.timeoutMs.value.sleepBetweenRetries else None
  }

  function InfoTimeoutMs(c: AerospikeConfig): Option<int> {
    if c.policies.Some? && c.policies.value.info.Some? then c.policies.value.info.value.timeoutMs else None
  }
}
