/** The cached game-server latency (handle_server.go): a probe that times a
    TCP dial, a cache that re-probes only once its interval has elapsed, and
    the handler that turns the cached value into a status response. */
module ServerStatus {
  import opened Common

  /** What one probe of the server observed (a TCP dial with a 5-second
      timeout): the dial failed, closing the
      connection failed, or the connection was made after `elapsed`
      nanoseconds of the monotonic clock. */
  datatype Probe = DialFailed | CloseFailed | Reached(elapsed: nat)

  /** `getFreshStatus`: the measured latency, or -1 when the dial or the
      close failed. A successful probe never reads as -1. */
  function GetFreshStatus(p: Probe): (latency: int)
    ensures latency == -1 <==> !p.Reached?
    ensures p.Reached? ==> latency == p.elapsed
  {
    match p
    case DialFailed => -1
    case CloseFailed => -1
    case Reached(elapsed) => elapsed
  }

  const ServerUnreachableResponse := ServerStatusBody(false, -1)

  /** `provideServerStatus` once the cache has answered: 503 with
      {false, -1} when offline, 200 with {true, latency} otherwise. */
  function StatusResponse(online: bool, latency: int): (r: Response)
    ensures r.status == StatusOK <==> online
    ensures r.status == StatusServiceUnavailable <==> !online
    ensures r.body.ServerStatusBody? && r.body.operating == online
    ensures online ==> r.body.latency == latency
    ensures !online ==> r.body.latency == -1
  {
    if !online then Response(StatusServiceUnavailable, ServerUnreachableResponse)
    else Response(StatusOK, ServerStatusBody(online, latency))
  }

  class CachedServerStatus {
    var serverAddress: String
    var lastLatency: int
    var lastUpdate: Time
    var updateInterval: Duration

    /** The cached latency is either -1 (offline) or a measured, non-negative
        latency. */
    ghost predicate Valid()
      reads this
    {
      lastLatency >= -1
    }

    /** `NewStatusCache`: probes once, then records the time the probe ended. */
    constructor (serverAddress: String, updateInterval: Duration, probe: Probe, probedAt: Time)
      ensures Valid()
      ensures this.serverAddress == serverAddress && this.updateInterval == updateInterval
      ensures lastLatency == GetFreshStatus(probe) && lastUpdate == probedAt
    {
      this.serverAddress := serverAddress;
      this.lastLatency := GetFreshStatus(probe);
      this.lastUpdate := probedAt;
      this.updateInterval := updateInterval;
    }

    /** `Get`: when `lastUpdate + updateInterval` lies strictly before `now`,
        re-probe and record the probe's latency and the time it ended;
        otherwise the cache is left as it is. Online means the latency is
        not -1, and the latency returned is always the cached one. */
    method Get(now: Time, probe: Probe, probedAt: Time) returns (online: bool, latency: int)
      requires Valid()
      modifies this`lastLatency, this`lastUpdate
      ensures Valid()
      ensures old(lastUpdate) + updateInterval < now ==>
                lastLatency == GetFreshStatus(probe) && lastUpdate == probedAt
      ensures !(old(lastUpdate) + updateInterval < now) ==>
                lastLatency == old(lastLatency) && lastUpdate == old(lastUpdate)
      ensures online <==> lastLatency != -1
      ensures online ==> latency >= 0
      ensures latency == lastLatency
    {
      if lastUpdate + updateInterval < now {
        lastLatency := GetFreshStatus(probe);
        lastUpdate := probedAt;
      }
      return lastLatency != -1, lastLatency;
    }

    /** `provideServerStatus`: asks the cache, then answers 503 with
        {false, -1} when offline and 200 with {true, latency} otherwise; in
        both cases the body's latency is the cached latency. */
    method ProvideServerStatus(now: Time, probe: Probe, probedAt: Time) returns (r: Response)
      requires Valid()
      modifies this`lastLatency, this`lastUpdate
      ensures Valid()
      ensures old(lastUpdate) + updateInterval < now ==>
                lastLatency == GetFreshStatus(probe) && lastUpdate == probedAt
      ensures !(old(lastUpdate) + updateInterval < now) ==>
                lastLatency == old(lastLatency) && lastUpdate == old(lastUpdate)
      ensures r == StatusResponse(lastLatency != -1, lastLatency)
      ensures r.body.ServerStatusBody? && r.body.latency == lastLatency
    {
      var online, latency := Get(now, probe, probedAt);
      r := StatusResponse(online, latency);
    }
  }

  /** A second `Get` before the interval has elapsed again (counted from the
      first `Get`'s refresh when it made one, otherwise from the cache's last
      update) answers exactly as the first did, whatever the second probe
      would have seen. */
  method GetWithinInterval(cache: CachedServerStatus, now: Time, later: Time,
                           probe1: Probe, probedAt1: Time, probe2: Probe, probedAt2: Time)
    returns (first: (bool, int), second: (bool, int))
    requires cache.Valid()
    requires now <= later
    requires later <= (if cache.lastUpdate + cache.updateInterval < now then probedAt1 else cache.lastUpdate)
                      + cache.updateInterval
    modifies cache
    ensures first == second
  {
    var o1, l1 := cache.Get(now, probe1, probedAt1);
    var o2, l2 := cache.Get(later, probe2, probedAt2);
    first, second := (o1, l1), (o2, l2);
  }
}
