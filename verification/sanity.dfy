/** Validation of the required fields (connect.go `sanityCheck`). */
module Sanity {
  import opened Options
  import opened Config

  const HostMissing := "aerospike seed host not specified"
  const PortMissing := "aerospike seed port not specified"

  /** The validation error, if any. The host is checked before the port. */
  function SanityCheck(c: AerospikeConfig): (err: Option<string>)
    ensures err.None? <==> c.host.Some? && c.port.Some?
    ensures c.host.None? ==> err == Some(HostMissing)
    ensures c.host.Some? && c.port.None? ==> err == Some(PortMissing)
  {
    if c.host.None? then Some(HostMissing)
    else if c.port.None? then Some(PortMissing)
    else None
  }
}
