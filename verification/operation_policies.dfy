/** The five per-operation policies of a connected handle
    (connect.go `makePolicies`). Each starts from the driver's default and
    takes a configured value only where the configuration supplies one. */
module OperationPolicies {
  import opened Options
  import opened Config
  import opened Driver

  /** One read, write, scan or query policy (connect.go:155-170; the same
      shape repeats for the other three kinds). */
  function ApplyTx(def: OpPolicy, t: Option<TxPolicyConfig>): (r: OpPolicy)
    ensures r.maxRetries == TxMaxRetries(t).Or(def.maxRetries)
    ensures r.sleepBetweenRetriesMs == TxSleepMs(t).Or(def.sleepBetweenRetriesMs)
    ensures r.socketTimeoutMs == TxSocketMs(t).Or(def.socketTimeoutMs)
    ensures r.totalTimeoutMs == TxTotalMs(t).Or(def.totalTimeoutMs)
  {
    match t
    case None => def
    case Some(tx) =>
      var p0 := if tx.maxRetries.Some? then def.(maxRetries := tx.maxRetries.value) else def;
      match tx.timeoutMs
      case None => p0
      case Some(tm) =>
        var p1 := if tm.sleepBetweenRetries.Some? then p0.(sleepBetweenRetriesMs := tm.sleepBetweenRetries.value) else p0;
        var p2 := if tm.socket.Some? then p1.(socketTimeoutMs := tm.socket.value) else p1;
        if tm.total.Some? then p2.(totalTimeoutMs := tm.total.value) else p2
  }

  /** The policy of one operation kind within a set of policies. */
  function PolicyOf(ps: Policies, k: OpKind): OpPolicy {
    match k
    case Read => ps.read
    case Write => ps.write
    case Scan => ps.scan
    case Query => ps.query
  }

  /** All five policies (connect.go:148-226). The derivation cannot fail. */
  function MakePolicies(c: AerospikeConfig, defaults: Policies): (r: Result<Policies, string>)
    ensures r.Success?
    ensures forall k: OpKind :: PolicyOf(r.value, k) == ApplyTx(PolicyOf(defaults, k), TxConfig(c, k))
    ensures r.value.info.timeoutMs == InfoTimeoutMs(c).Or(defaults.info.timeoutMs)
  {
    if c.policies.None? then Success(defaults)
    else
      var ps := c.policies.value;
      var info :=
        if ps.info.Some? && ps.info.value.timeoutMs.Some?
        then defaults.info.(timeoutMs := ps.info.value.timeoutMs.value)
        else defaults.info;
      Success(Policies(
        ApplyTx(defaults.read, ps.read),
        ApplyTx(defaults.write, ps.write),
        ApplyTx(defaults.scan, ps.scan),
        ApplyTx(defaults.query, ps.query),
        info))
  }

  /** A field of an operation policy differs from the driver default only
      when the configuration supplies that field for that kind. */
  lemma OnlyConfiguredFieldsChange(c: AerospikeConfig, defaults: Policies, k: OpKind)
    ensures var p := PolicyOf(MakePolicies(c, defaults).value, k);
            var d := PolicyOf(defaults, k);
            var t := TxConfig(c, k);
            && (p.maxRetries != d.maxRetries ==> TxMaxRetries(t).Some?)
            && (p.sleepBetweenRetriesMs != d.sleepBetweenRetriesMs ==> TxSleepMs(t).Some?)
            && (p.socketTimeoutMs != d.socketTimeoutMs ==> TxSocketMs(t).Some?)
            && (p.totalTimeoutMs != d.totalTimeoutMs ==> TxTotalMs(t).Some?)
  {
  }

  /** One kind's policy depends on that kind's configuration alone. */
  lemma PoliciesAreIndependent(c1: AerospikeConfig, c2: AerospikeConfig, defaults: Policies, k: OpKind)
    requires TxConfig(c1, k) == TxConfig(c2, k)
    ensures PolicyOf(MakePolicies(c1, defaults).value, k) == PolicyOf(MakePolicies(c2, defaults).value, k)
  {
  }

  /** Without a policies section every policy is the driver default. */
  lemma NoPoliciesMeansDefaults(c: AerospikeConfig, defaults: Policies)
    requires c.policies.None?
    ensures MakePolicies(c, defaults) == Success(defaults)
  {
  }
}
