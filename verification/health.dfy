/**
 * Health monitoring: the full `/health` probe that flips a service between healthy and down
 * and announces the flip, the quick `/ping` pulse for healthy services, and the alerts the
 * server relays for the announcements.
 */
module Health {
  import opened Wrappers
  import opened Registry

  /**
   * What a `/health` or `/ping` request did: an HTTP reply with its status code, the clock
   * when it arrived and the milliseconds it took, or no reply at all (refused, timed out).
   */
  datatype Probe = Responded(httpStatus: int, at: int, elapsed: nat) | Unreachable

  /** The HTTP client treats a status outside 2xx as a thrown error. */
  predicate Throws(p: Probe) {
    p.Unreachable? || !(200 <= p.httpStatus < 300)
  }

  /** The two announcements a probe can make. */
  datatype Transition = Recovered | WentDown

  /**
   * `checkServiceHealth` on one descriptor: a 200 reply marks the service healthy, stamps the
   * ping, records the round trip and clears the retry count; another 2xx reply changes nothing;
   * anything the client throws on marks it down and forgets the response time. A transition
   * is announced only when the status crosses the healthy line.
   */
  function CheckDescriptor(d: ServiceDescriptor, p: Probe): (r: (ServiceDescriptor, Option<Transition>))
    ensures r.1 == Some(Recovered) <==> d.status != Healthy && r.0.status == Healthy
    ensures r.1 == Some(WentDown) <==> d.status == Healthy && r.0.status != Healthy
    ensures p.Responded? && p.httpStatus == 200 ==>
      r.0 == d.(status := Healthy, lastPing := Some(p.at), responseTime := Some(p.elapsed), retryCount := 0)
    ensures !Throws(p) && p.httpStatus != 200 ==> r == (d, None)
    ensures Throws(p) ==> r.0 == d.(status := Down, responseTime := None)
  {
    if p.Responded? && p.httpStatus == 200 then
      var wasDown := d.status != Healthy;
      (d.(status := Healthy, lastPing := Some(p.at), responseTime := Some(p.elapsed), retryCount := 0),
       if wasDown then Some(Recovered) else None)
    else if !Throws(p) then
      (d, None)
    else
      var wasHealthy := d.status == Healthy;
      (d.(status := Down, responseTime := None), if wasHealthy then Some(WentDown) else None)
  }

  /** An announcement together with the registry key it is about. */
  datatype HealthEvent = HealthEvent(service: ServiceId, transition: Transition)

  function Announce(id: ServiceId, t: Option<Transition>): (r: seq<HealthEvent>)
    ensures |r| <= 1
    ensures |r| == 1 <==> t.Some?
    ensures |r| == 1 ==> r[0] == HealthEvent(id, t.value)
  {
    if t.Some? then [HealthEvent(id, t.value)] else []
  }

  /** `checkServiceHealth(serviceName)`: probe one entry of the registry. */
  function CheckServiceHealth(s: Services, id: ServiceId, p: Probe): (r: (Services, seq<HealthEvent>))
    ensures r.0.Get(id) == CheckDescriptor(s.Get(id), p).0
    ensures r.1 == Announce(id, CheckDescriptor(s.Get(id), p).1)
    ensures forall other :: other != id ==> r.0.Get(other) == s.Get(other)
  {
    var (d, t) := CheckDescriptor(s.Get(id), p);
    (s.Put(id, d), Announce(id, t))
  }

  /** `checkAllServicesHealth`: probe `ai`, then `cv`, in the registry's insertion order. */
  function CheckAllServicesHealth(s: Services, aiProbe: Probe, cvProbe: Probe): (r: (Services, seq<HealthEvent>))
    ensures r.0.ai == CheckDescriptor(s.ai, aiProbe).0
    ensures r.0.cv == CheckDescriptor(s.cv, cvProbe).0
    ensures r.1 == Announce(Ai, CheckDescriptor(s.ai, aiProbe).1) + Announce(Cv, CheckDescriptor(s.cv, cvProbe).1)
    ensures |r.1| <= 2
  {
    var (s1, e1) := CheckServiceHealth(s, Ai, aiProbe);
    var (s2, e2) := CheckServiceHealth(s1, Cv, cvProbe);
    (s2, e1 + e2)
  }

  /**
   * `pingService`: a successful ping only refreshes `lastPing`; a thrown one is ignored.
   * The pulse pings only healthy services.
   */
  function Pulse(d: ServiceDescriptor, p: Probe): (r: ServiceDescriptor)
    ensures d.status != Healthy || Throws(p) ==> r == d
    ensures d.status == Healthy && !Throws(p) ==> r == d.(lastPing := Some(p.at))
    ensures r.status == d.status && r.retryCount == d.retryCount && r.responseTime == d.responseTime
  {
    if d.status == Healthy && !Throws(p) then d.(lastPing := Some(p.at)) else d
  }

  /** `quickHealthPulse` over both services. */
  function QuickHealthPulse(s: Services, aiPing: Probe, cvPing: Probe): (r: Services)
    ensures r.ai == Pulse(s.ai, aiPing) && r.cv == Pulse(s.cv, cvPing)
    ensures OverallStatus(r) == OverallStatus(s)
  {
    Services(Pulse(s.ai, aiPing), Pulse(s.cv, cvPing))
  }

  // ---------------------------------------------------------------------------
  // A service's history under repeated full checks.
  // ---------------------------------------------------------------------------

  /** Probe one descriptor with each probe in turn, collecting the announcements. */
  function RunProbes(d: ServiceDescriptor, probes: seq<Probe>): (r: (ServiceDescriptor, seq<Transition>))
    ensures |r.1| <= |probes|
    ensures |probes| == 0 ==> r == (d, [])
    ensures |probes| > 0 && Throws(probes[|probes| - 1]) ==> r.0.status == Down && r.0.responseTime == None
    ensures |probes| > 0 && probes[|probes| - 1].Responded? && probes[|probes| - 1].httpStatus == 200 ==>
      && r.0.status == Healthy
      && r.0.retryCount == 0
      && r.0.lastPing == Some(probes[|probes| - 1].at)
      && r.0.responseTime == Some(probes[|probes| - 1].elapsed)
    ensures r.0 == d.(status := r.0.status, lastPing := r.0.lastPing, responseTime := r.0.responseTime,
                      retryCount := r.0.retryCount)
    decreases |probes|
  {
    if |probes| == 0 then (d, [])
    else
      var (d1, t) := CheckDescriptor(d, probes[0]);
      var (dn, ts) := RunProbes(d1, probes[1..]);
      (dn, (if t.Some? then [t.value] else []) + ts)
  }

  /** The announcement that would move a service away from status `healthy`. */
  function Leaving(healthy: bool): Transition {
    if healthy then WentDown else Recovered
  }

  /** Announcements alternate, beginning with the move away from the starting status. */
  predicate Alternates(ts: seq<Transition>, startHealthy: bool) {
    forall k :: 0 <= k < |ts| ==> ts[k] == Leaving(if k % 2 == 0 then startHealthy else !startHealthy)
  }

  lemma AlternatesCons(t: Transition, ts: seq<Transition>, startHealthy: bool)
    requires t == Leaving(startHealthy)
    requires Alternates(ts, !startHealthy)
    ensures Alternates([t] + ts, startHealthy)
  {
    forall k | 0 <= k < |[t] + ts|
      ensures ([t] + ts)[k] == Leaving(if k % 2 == 0 then startHealthy else !startHealthy)
    {
      if k > 0 {
        assert ([t] + ts)[k] == ts[k - 1];
      }
    }
  }

  /**
   * Over any sequence of probes, "went down" and "recovered" strictly alternate, starting from
   * the service's status before the first probe; the number of announcements is even exactly
   * when the service ends on the healthy side it started on.
   */
  lemma {:induction false} AnnouncementsAlternate(d: ServiceDescriptor, probes: seq<Probe>)
    ensures Alternates(RunProbes(d, probes).1, d.status == Healthy)
    ensures (|RunProbes(d, probes).1| % 2 == 0) <==> ((RunProbes(d, probes).0.status == Healthy) == (d.status == Healthy))
    decreases |probes|
  {
    if |probes| > 0 {
      var (d1, t) := CheckDescriptor(d, probes[0]);
      AnnouncementsAlternate(d1, probes[1..]);
      if t.Some? {
        AlternatesCons(t.value, RunProbes(d1, probes[1..]).1, d.status == Healthy);
      }
    }
  }

  /** The alerts the server relays to every client, one per announcement. */
  datatype Alert = Alert(kind: string, service: string, message: string)

  /** The server's `service-down` / `service-recovered` listeners. */
  function AlertFor(e: HealthEvent, s: Services): (a: Alert)
    ensures a.kind == (if e.transition == WentDown then "service_down" else "service_recovered")
    ensures a.service == (if e.service == Ai then "ai" else "cv")
  {
    var name := s.Get(e.service).name;
    match e.transition
    case WentDown => Alert("service_down", if e.service == Ai then "ai" else "cv", name + " is temporarily unavailable")
    case Recovered => Alert("service_recovered", if e.service == Ai then "ai" else "cv", name + " is back online")
  }
}
