/**
 * The authoritative time reading: which time server is asked, and what the
 * reading is when the query succeeds or fails. The network query itself is a
 * parameter (`Reply`).
 */
module TimeSource {
  import opened Wrappers
  import opened Time

  /** The public pool asked when the server argument is None or empty. */
  const DefaultServer: string := "pool.ntp.org"

  /** Python truthiness of an optional string: present and non-empty. */
  predicate Given(s: Option<string>) {
    s.Some? && s.value != []
  }

  /** The server the reading is requested from; a None or empty argument gives the default. */
  function ServerAddress(configured: Option<string>): (server: string)
    ensures Given(configured) ==> server == configured.value
    ensures !Given(configured) ==> server == DefaultServer
    ensures server != []
  {
    if Given(configured) then configured.value else DefaultServer
  }

  /** What the time server answered: its transmit time, or nothing at all. */
  datatype Reply = Replied(txTime: Instant) | Failed

  /**
   * The authoritative "now": the server's transmit time, or the local clock
   * (read at the moment of the failure) when the query failed.
   */
  function NtpTime(reply: Reply, localNow: Instant): (now: Instant)
    ensures reply.Replied? ==> now == reply.txTime
    ensures reply.Failed? ==> now == localNow
  {
    match reply
    case Replied(t) => t
    case Failed => localNow
  }
}
