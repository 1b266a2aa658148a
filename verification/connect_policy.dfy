/** Derivation of the driver's connect policy from the configuration
    (connect.go `setConnectPolicy`). Reading the CA bundle and loading the
    certificate/key pair are oracle calls whose only observable effect here is
    success with a value or failure with an error text. */
module ConnectPolicy {
  import opened Options
  import opened Config
  import opened Driver

  const LoadCaPrefix := "tls: loadca: "
  const LoadKeysPrefix := "tls: loadkeys: "

  /** TLS is configured when a CA file, certificate file, key file or server
      name is present; the skip-verification flag alone does not count. */
  predicate TlsRequested(c: AerospikeConfig) {
    c.tls.Some? &&
    (c.tls.value.caFile.Some? || c.tls.value.certFile.Some? ||
     c.tls.value.keyFile.Some? || c.tls.value.serverName.Some?)
  }

  /** A certificate or a key file is present, so a key pair must be loaded. */
  predicate KeysRequested(t: TlsSettings) {
    t.certFile.Some? || t.keyFile.Some?
  }

  /** The CA bundle is requested and cannot be read. */
  predicate CaFails(t: TlsSettings, files: Files) {
    t.caFile.Some? && files.readFile(t.caFile.value).Failure?
  }

  /** The key pair that is loaded: a missing path stands for "". */
  function KeyPairLoad(t: TlsSettings, files: Files): Result<KeyPair, string> {
    files.loadKeyPair(t.certFile.Or(""), t.keyFile.Or(""))
  }

  /** The base timeouts (connect.go:27-37): idle and connect timeouts are
      copied when present, the login timeout only alongside credentials. */
  function ApplyTimeouts(c: AerospikeConfig, p: ClientPolicy): (q: ClientPolicy)
    ensures q.idleTimeoutMs == IdleTimeoutMs(c).Or(p.idleTimeoutMs)
    ensures q.timeoutMs == ConnectTimeoutMs(c).Or(p.timeoutMs)
    ensures q.loginTimeoutMs != p.loginTimeoutMs ==> HasCredentials(c) && LoginTimeoutMs(c).Some?
    ensures HasCredentials(c) && LoginTimeoutMs(c).Some? ==> q.loginTimeoutMs == LoginTimeoutMs(c).value
    ensures q.(idleTimeoutMs := p.idleTimeoutMs, timeoutMs := p.timeoutMs, loginTimeoutMs := p.loginTimeoutMs) == p
  {
    if c.policies.Some? && c.policies.value.base.Some? && c.policies.value.base.value.timeoutMs.Some? then
      var t := c.policies.value.base.value.timeoutMs.value;
      var q0 := if t.idle.Some? then p.(idleTimeoutMs := t.idle.value) else p;
      var q1 := if t.connect.Some? then q0.(timeoutMs := t.connect.value) else q0;
      if c.security.Some? && (c.security.value.username.Some? || c.security.value.password.Some?) && t.login.Some?
      then q1.(loginTimeoutMs := t.login.value) else q1
    else p
  }

  /** The credentials and authentication mode (connect.go:38-52): the mode
      follows the explicit flag, and only when credentials are configured. */
  function ApplySecurity(c: AerospikeConfig, p: ClientPolicy): (q: ClientPolicy)
    ensures q.user == Username(c).Or(p.user)
    ensures q.password == Password(c).Or(p.password)
    ensures q.authMode != p.authMode ==> HasCredentials(c) && ExternalAuthFlag(c).Some?
    ensures HasCredentials(c) && ExternalAuthFlag(c) == Some(true) ==> q.authMode == AuthModeExternal
    ensures HasCredentials(c) && ExternalAuthFlag(c) == Some(false) ==> q.authMode == AuthModeInternal
    ensures q.(user := p.user, password := p.password, authMode := p.authMode) == p
  {
    if c.security.Some? && (c.security.value.username.Some? || c.security.value.password.Some?) then
      var s := c.security.value;
      var q0 := if s.username.Some? then p.(user := s.username.value) else p;
      var q1 := if s.password.Some? then q0.(password := s.password.value) else q0;
      if s.authModeExternal.Some? then
        q1.(authMode := if s.authModeExternal.value then AuthModeExternal else AuthModeInternal)
      else q1
    else p
  }

  /** Queue sizing and cluster name (connect.go:53-61). */
  function ApplyShaping(c: AerospikeConfig, p: ClientPolicy): (q: ClientPolicy)
    ensures q.connectionQueueSize == c.connectionQueueSize.Or(p.connectionQueueSize)
    ensures q.limitConnectionsToQueueSize == c.limitConnectionsToQueueSize.Or(p.limitConnectionsToQueueSize)
    ensures q.clusterName == c.clusterName.Or(p.clusterName)
    ensures q.(connectionQueueSize := p.connectionQueueSize,
               limitConnectionsToQueueSize := p.limitConnectionsToQueueSize,
               clusterName := p.clusterName) == p
  {
    var q0 := if c.connectionQueueSize.Some? then p.(connectionQueueSize := c.connectionQueueSize.value) else p;
    var q1 := if c.limitConnectionsToQueueSize.Some? then q0.(limitConnectionsToQueueSize := c.limitConnectionsToQueueSize.value) else q0;
    if c.clusterName.Some? then q1.(clusterName := c.clusterName.value) else q1
  }

  /** Every field except the TLS configuration (connect.go:25-61). */
  function ApplyFields(c: AerospikeConfig, base: ClientPolicy): (p: ClientPolicy)
    ensures p.failIfNotConnected
    ensures p.idleTimeoutMs == IdleTimeoutMs(c).Or(base.idleTimeoutMs)
    ensures p.timeoutMs == ConnectTimeoutMs(c).Or(base.timeoutMs)
    ensures p.loginTimeoutMs != base.loginTimeoutMs ==> HasCredentials(c) && LoginTimeoutMs(c).Some?
    ensures HasCredentials(c) && LoginTimeoutMs(c).Some? ==> p.loginTimeoutMs == LoginTimeoutMs(c).value
    ensures p.user == Username(c).Or(base.user)
    ensures p.password == Password(c).Or(base.password)
    ensures p.authMode != base.authMode ==> HasCredentials(c) && ExternalAuthFlag(c).Some?
    ensures HasCredentials(c) && ExternalAuthFlag(c) == Some(true) ==> p.authMode == AuthModeExternal
    ensures HasCredentials(c) && ExternalAuthFlag(c) == Some(false) ==> p.authMode == AuthModeInternal
    ensures p.connectionQueueSize == c.connectionQueueSize.Or(base.connectionQueueSize)
    ensures p.limitConnectionsToQueueSize == c.limitConnectionsToQueueSize.Or(base.limitConnectionsToQueueSize)
    ensures p.clusterName == c.clusterName.Or(base.clusterName)
    ensures p.tlsConfig == base.tlsConfig
  {
    ApplyShaping(c, ApplySecurity(c, ApplyTimeouts(c, base.(failIfNotConnected := true))))
  }

  /** The TLS configuration, or the wrapped error of the CA read or the
      key-pair load (connect.go:63-95). The CA bundle is read first. */
  function BuildTls(t: TlsSettings, files: Files): (r: Result<TlsConfig, string>)
    ensures r.Failure? <==> CaFails(t, files) || (KeysRequested(t) && KeyPairLoad(t, files).Failure?)
    ensures CaFails(t, files) ==> r == Failure(LoadCaPrefix + files.readFile(t.caFile.value).error)
    ensures !CaFails(t, files) && KeysRequested(t) && KeyPairLoad(t, files).Failure? ==>
              r == Failure(LoadKeysPrefix + KeyPairLoad(t, files).error)
    ensures r.Success? ==> r.value.insecureSkipVerify == t.insecureSkipVerify.Or(false)
    ensures r.Success? ==> r.value.serverName == t.serverName.Or("")
    ensures r.Success? ==> (r.value.rootCAs.Some? <==> t.caFile.Some?)
    ensures r.Success? && t.caFile.Some? ==> r.value.rootCAs.value == files.readFile(t.caFile.value).value
    ensures r.Success? ==> r.value.certificates == if KeysRequested(t) then [KeyPairLoad(t, files).value] else []
  {
    var n0 := if t.insecureSkipVerify.Some? then EmptyTls.(insecureSkipVerify := t.insecureSkipVerify.value) else EmptyTls;
    var n1 := if t.serverName.Some? then n0.(serverName := t.serverName.value) else n0;
    var ca := if t.caFile.Some? then files.readFile(t.caFile.value) else Success([]);
    if ca.Failure? then Failure(LoadCaPrefix + ca.error)
    else
      var n2 := if t.caFile.Some? then n1.(rootCAs := Some(ca.value)) else n1;
      if t.certFile.Some? || t.keyFile.Some? then
        var certFile := if t.certFile.Some? then t.certFile.value else "";
        var keyFile := if t.keyFile.Some? then t.keyFile.value else "";
        match files.loadKeyPair(certFile, keyFile)
        case Failure(e) => Failure(LoadKeysPrefix + e)
        case Success(kp) => Success(n2.(certificates := [kp]))
      else Success(n2)
  }

  /** The connect policy, or the TLS error with no policy
      (connect.go `setConnectPolicy`). */
  function SetConnectPolicy(c: AerospikeConfig, base: ClientPolicy, files: Files): (r: Result<ClientPolicy, string>)
    ensures r.Failure? <==> TlsRequested(c) && BuildTls(c.tls.value, files).Failure?
    ensures r.Failure? ==> LoadCaPrefix <= r.error || LoadKeysPrefix <= r.error
    ensures r.Failure? ==> r.error == BuildTls(c.tls.value, files).error
    ensures r.Success? ==> r.value.(tlsConfig := base.tlsConfig) == ApplyFields(c, base)
    ensures r.Success? && TlsRequested(c) ==> r.value.tlsConfig == Some(BuildTls(c.tls.value, files).value)
    ensures r.Success? && !TlsRequested(c) ==> r.value.tlsConfig == base.tlsConfig
  {
    var p := ApplyFields(c, base);
    if c.tls.Some? && (c.tls.value.caFile.Some? || c.tls.value.certFile.Some? ||
                       c.tls.value.keyFile.Some? || c.tls.value.serverName.Some?) then
      match BuildTls(c.tls.value, files)
      case Failure(e) => Failure(e)
      case Success(t) => Success(p.(tlsConfig := Some(t)))
    else Success(p)
  }

  /** With the driver's default of no TLS, a TLS configuration is attached
      exactly when one of the four triggering fields is present. */
  lemma TlsAttachedIffRequested(c: AerospikeConfig, base: ClientPolicy, files: Files)
    requires base.tlsConfig.None?
    requires SetConnectPolicy(c, base, files).Success?
    ensures SetConnectPolicy(c, base, files).value.tlsConfig.Some? <==> TlsRequested(c)
  {
  }

  /** The skip-verification flag on its own leaves the policy without TLS. */
  lemma InsecureFlagAloneIsNoTrigger(c: AerospikeConfig, base: ClientPolicy, files: Files, skip: bool)
    requires c.tls == Some(TlsSettings(None, None, None, None, Some(skip)))
    ensures SetConnectPolicy(c, base, files) == Success(ApplyFields(c, base))
  {
  }

  /** A server name alone turns TLS on with verification still enabled and
      without touching the file system. */
  lemma ServerNameAloneEnablesTls(c: AerospikeConfig, base: ClientPolicy, files: Files, name: string)
    requires c.tls == Some(TlsSettings(None, None, None, Some(name), None))
    ensures SetConnectPolicy(c, base, files).Success?
    ensures SetConnectPolicy(c, base, files).value.tlsConfig == Some(TlsConfig(false, name, None, []))
  {
  }

  /** An empty configuration changes nothing but the fail-if-not-connected flag. */
  lemma EmptyConfigKeepsDefaults(base: ClientPolicy, files: Files)
    ensures SetConnectPolicy(Empty, base, files) == Success(base.(failIfNotConnected := true))
  {
  }

  /** The login timeout and the authentication mode ignore their settings
      unless a username or a password is configured. */
  lemma NoCredentialsNoLoginOrAuth(c: AerospikeConfig, base: ClientPolicy, files: Files)
    requires !HasCredentials(c)
    requires SetConnectPolicy(c, base, files).Success?
    ensures SetConnectPolicy(c, base, files).value.loginTimeoutMs == base.loginTimeoutMs
    ensures SetConnectPolicy(c, base, files).value.authMode == base.authMode
  {
  }
}
