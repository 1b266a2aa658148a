/** The database driver's boundary, as far as the bootstrap touches it.

    The driver itself (its constructors' default values, the network dial, the
    certificate parsing) is not part of this model: its defaults are supplied
    as a `Defaults` value and its effects as oracle functions. Configured
    timeouts are whole milliseconds; the sampled elapsed time is `int64`
    nanoseconds. */
module Driver {
  import opened Options

  type Byte = bv8

  /** Values of Go's `int64`. */
  type Int64 = x: int | -0x8000_0000_0000_0000 <= x < 0x8000_0000_0000_0000

  datatype AuthMode = AuthModeInternal | AuthModeExternal

  /** A loaded certificate and private key pair. */
  datatype KeyPair = KeyPair(certificate: seq<Byte>, privateKey: seq<Byte>)

  /** The `tls.Config` handed to the driver; `rootCAs` is the PEM bundle the
      certificate pool was built from. */
  datatype TlsConfig = TlsConfig(
    insecureSkipVerify: bool,
    serverName: string,
    rootCAs: Option<seq<Byte>>,
    certificates: seq<KeyPair>)

  /** The empty `tls.Config` (Go's zero value). */
  const EmptyTls := TlsConfig(false, "", None, [])

  /** The fields of the driver's `ClientPolicy` the bootstrap can set. */
  datatype ClientPolicy = ClientPolicy(
    failIfNotConnected: bool,
    idleTimeoutMs: int,
    timeoutMs: int,
    loginTimeoutMs: int,
    user: string,
    password: string,
    authMode: AuthMode,
    connectionQueueSize: int,
    limitConnectionsToQueueSize: bool,
    clusterName: string,
    tlsConfig: Option<TlsConfig>)

  /** The retry and timeout fields of a read, write, scan or query policy. */
  datatype OpPolicy = OpPolicy(
    maxRetries: int,
    sleepBetweenRetriesMs: int,
    socketTimeoutMs: int,
    totalTimeoutMs: int)

  datatype InfoPolicy = InfoPolicy(timeoutMs: int)

  /** The five per-operation policies a connection handle carries. */
  datatype Policies = Policies(
    read: OpPolicy,
    write: OpPolicy,
    scan: OpPolicy,
    query: OpPolicy,
    info: InfoPolicy)

  /** What the driver's constructors return: `NewClientPolicy()`,
      `NewPolicy()`, `NewWritePolicy(0, 0)`, `NewScanPolicy()`,
      `NewQueryPolicy()` and `NewInfoPolicy()`. */
  datatype Defaults = Defaults(client: ClientPolicy, ops: Policies)

  /** File-system and certificate oracles: reading a CA bundle and loading a
      certificate/key pair either yield a value or an error text. */
  datatype Files = Files(
    readFile: string -> Result<seq<Byte>, string>,
    loadKeyPair: (string, string) -> Result<KeyPair, string>)

  /** A connected driver client, identified opaquely. */
  datatype Client = Client(id: nat)

  /** The outcome of one `NewClientWithPolicy` call. */
  datatype Attempt = Connected(client: Client) | Refused(err: string)

  /** The network and the clock: `dial(policy, host, port, k)` answers the
      k-th connection attempt (counting from 0), and `elapsedNs(k)` is the
      time since the first attempt started, sampled after the k-th failure. */
  datatype Network = Network(
    dial: (ClientPolicy, string, int, nat) -> Attempt,
    elapsedNs: nat -> Int64)
}
