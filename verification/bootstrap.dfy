/** The public entry point (connect.go `Connect`): validation, connect
    policy, connection with retry, operation policies, in that order. Each
    failure is returned at once with its stage's prefix; a failure of the last
    stage still hands back the connected client. */
module Bootstrap {
  import opened Options
  import opened Config
  import opened Driver
  import opened Sanity
  import opened ConnectPolicy
  import opened ConnectRetry
  import opened OperationPolicies

  const ConfigCheckPrefix := "config check: "
  const CreatePolicyPrefix := "create connect policy: "
  const ConnectPrefix := "connect: "
  const MakePoliciesPrefix := "makePolicies: "

  /** The connection handle (`Aerospike` in struct.go); `policies` is absent
      when their derivation reported an error. */
  datatype Handle = Handle(client: Client, policies: Option<Policies>)

  /** Go's `(*Aerospike, error)` pair, plus the number of connection
      attempts made on the way. */
  datatype Reply = Reply(handle: Option<Handle>, err: Option<string>, attempts: nat)

  /** Everything outside the bootstrap: driver defaults, files, network. */
  datatype Environment = Environment(defaults: Defaults, files: Files, network: Network)

  /** The connection loop for a validated configuration; the seed host and
      port are passed to every attempt (connect.go:100-146). */
  function ConnectWithRetry(c: AerospikeConfig, policy: ClientPolicy, net: Network, rule: ClockRule): (run: Run)
    requires c.host.Some? && c.port.Some?
    ensures run.attempts <= MaxAttempts(c)
    ensures run.result == AsResult(net.dial(policy, c.host.value, c.port.value, run.attempts - 1))
    ensures IsRun(Params(c), rule, Probe((k: nat) => net.dial(policy, c.host.value, c.port.value, k), net.elapsedNs), run)
  {
    Retry(Params(c), rule, Probe((k: nat) => net.dial(policy, c.host.value, c.port.value, k), net.elapsedNs))
  }

  /** The last stage: the handle is returned whether or not the policies
      could be derived (connect.go:242-247). */
  function Finish(client: Client, policies: Result<Policies, string>, attempts: nat): (r: Reply)
    ensures r.handle.Some? && r.handle.value.client == client
    ensures r.attempts == attempts
    ensures r.err.None? <==> policies.Success?
    ensures policies.Success? ==> r.handle.value.policies == Some(policies.value)
    ensures policies.Failure? ==> r.err == Some(MakePoliciesPrefix + policies.error)
  {
    match policies
    case Failure(e) => Reply(Some(Handle(client, None)), Some(MakePoliciesPrefix + e), attempts)
    case Success(ps) => Reply(Some(Handle(client, Some(ps))), None, attempts)
  }

  /** The stage that failed first is reported; no attempt is made unless the
      configuration is valid and the connect policy could be built. */
  function Connect(c: AerospikeConfig, env: Environment, rule: ClockRule): (r: Reply)
    ensures SanityCheck(c).Some? ==> r == Reply(None, Some(ConfigCheckPrefix + SanityCheck(c).value), 0)
    ensures SanityCheck(c).None? && SetConnectPolicy(c, env.defaults.client, env.files).Failure? ==>
              r == Reply(None, Some(CreatePolicyPrefix + SetConnectPolicy(c, env.defaults.client, env.files).error), 0)
    ensures r.attempts > 0 <==> SanityCheck(c).None? && SetConnectPolicy(c, env.defaults.client, env.files).Success?
    ensures r.attempts <= MaxAttempts(c)
    ensures r.handle.Some? <==> r.err.None?
    ensures r.err.Some? ==> ConfigCheckPrefix <= r.err.value || CreatePolicyPrefix <= r.err.value || ConnectPrefix <= r.err.value
    ensures r.handle.Some? ==> r.handle.value.policies == Some(MakePolicies(c, env.defaults.ops).value)
  {
    match SanityCheck(c)
    case Some(e) => Reply(None, Some(ConfigCheckPrefix + e), 0)
    case None =>
      match SetConnectPolicy(c, env.defaults.client, env.files)
      case Failure(e) => Reply(None, Some(CreatePolicyPrefix + e), 0)
      case Success(policy) =>
        var run := ConnectWithRetry(c, policy, env.network, rule);
        match run.result
        case Failure(e) => Reply(None, Some(ConnectPrefix + e), run.attempts)
        case Success(client) => Finish(client, MakePolicies(c, env.defaults.ops), run.attempts)
  }

  /** Once the connect policy is built, `Connect` reports exactly what the
      connection loop reports. */
  lemma ConnectFollowsTheLoop(c: AerospikeConfig, env: Environment, rule: ClockRule)
    requires SanityCheck(c).None?
    requires SetConnectPolicy(c, env.defaults.client, env.files).Success?
    ensures var run := ConnectWithRetry(c, SetConnectPolicy(c, env.defaults.client, env.files).value, env.network, rule);
            var r := Connect(c, env, rule);
            && r.attempts == run.attempts
            && (r.handle.Some? <==> run.result.Success?)
            && (run.result.Success? ==> r.handle.value.client == run.result.value)
            && (run.result.Failure? ==> r.err == Some(ConnectPrefix + run.result.error))
  {
  }

  /** A configuration without a seed host fails validation whatever else it
      holds, before any file or network access. */
  lemma MissingHostFailsFirst(c: AerospikeConfig, env: Environment, rule: ClockRule)
    requires c.host.None?
    ensures Connect(c, env, rule) == Reply(None, Some(ConfigCheckPrefix + HostMissing), 0)
  {
  }
}
