/**
 * The orchestrator's service registry: one descriptor for the AI teacher and one for the
 * CV tracker, their registration-time merge, and the overall status derived from them.
 */
module Registry {
  import opened Wrappers

  datatype Status = Unknown | Healthy | Down

  /** The registry's keys, `ai` and `cv`. */
  datatype ServiceId = Ai | Cv

  /**
   * One remote service. `retryCount` is shared by every call to the service and by its
   * health probe; `responseTime` and `lastPing` are in milliseconds.
   */
  datatype ServiceDescriptor = ServiceDescriptor(
    name: string,
    url: string,
    status: Status,
    lastPing: Option<int>,
    responseTime: Option<int>,
    capabilities: seq<string>,
    retryCount: nat,
    maxRetries: nat,
    registeredAt: Option<int>)

  datatype Services = Services(ai: ServiceDescriptor, cv: ServiceDescriptor) {

    function Get(id: ServiceId): ServiceDescriptor {
      match id
      case Ai => ai
      case Cv => cv
    }

    function Put(id: ServiceId, d: ServiceDescriptor): (r: Services)
      ensures r.Get(id) == d
      ensures forall other :: other != id ==> r.Get(other) == Get(other)
    {
      match id
      case Ai => this.(ai := d)
      case Cv => this.(cv := d)
    }
  }

  const MaxRetries: nat := 3

  /** An environment variable's value, or `default` when it is unset or empty. */
  function EnvOr(variable: Option<string>, default: string): (r: string)
    ensures variable.Some? && variable.value != "" ==> r == variable.value
    ensures (variable.None? || variable.value == "") ==> r == default
  {
    if variable.Some? && variable.value != "" then variable.value else default
  }

  function Fresh(name: string, url: string, capabilities: seq<string>): ServiceDescriptor {
    ServiceDescriptor(name, url, Unknown, None, None, capabilities, 0, MaxRetries, None)
  }

  /** The registry as the orchestrator's constructor builds it, given the two URL variables. */
  function InitialServices(aiUrl: Option<string>, cvUrl: Option<string>): (s: Services)
    ensures s.ai.status == Unknown && s.cv.status == Unknown
    ensures s.ai.retryCount == 0 && s.cv.retryCount == 0
    ensures s.ai.maxRetries == MaxRetries && s.cv.maxRetries == MaxRetries
  {
    Services(
      Fresh("AI Guitar Teacher", EnvOr(aiUrl, "http://localhost:3002"),
            ["natural_language", "chord_detection", "text_to_speech"]),
      Fresh("CV Guitar Vision", EnvOr(cvUrl, "http://localhost:5000"),
            ["guitar_detection", "ar_overlay", "real_time_tracking"]))
  }

  /** The registry key a service name refers to; any other name refers to nothing. */
  function KeyOf(serviceName: string): Option<ServiceId> {
    if serviceName == "ai" then Some(Ai)
    else if serviceName == "cv" then Some(Cv)
    else None
  }

  /** The fields a registration supplies; an absent field keeps the descriptor's value. */
  datatype ServicePatch = ServicePatch(
    name: Option<string>,
    url: Option<string>,
    capabilities: Option<seq<string>>)

  /**
   * Registration: on a known key, the supplied fields overwrite the descriptor's, and
   * `registeredAt` is stamped with `now`; an unknown key changes nothing.
   */
  function RegisterService(s: Services, serviceName: string, patch: ServicePatch, now: int): (r: Services)
    ensures KeyOf(serviceName).None? ==> r == s
    ensures KeyOf(serviceName).Some? ==>
      var id := KeyOf(serviceName).value;
      var (before, after) := (s.Get(id), r.Get(id));
      && after.name == patch.name.GetOr(before.name)
      && after.url == patch.url.GetOr(before.url)
      && after.capabilities == patch.capabilities.GetOr(before.capabilities)
      && after.registeredAt == Some(now)
      && after.status == before.status
      && after.retryCount == before.retryCount
      && after.maxRetries == before.maxRetries
      && after.lastPing == before.lastPing
      && after.responseTime == before.responseTime
      && forall other :: other != id ==> r.Get(other) == s.Get(other)
  {
    match KeyOf(serviceName)
    case None => s
    case Some(id) =>
      var d := s.Get(id);
      s.Put(id, d.(name := patch.name.GetOr(d.name),
                   url := patch.url.GetOr(d.url),
                   capabilities := patch.capabilities.GetOr(d.capabilities),
                   registeredAt := Some(now)))
  }

  function HealthyCount(s: Services): (n: nat)
    ensures n <= 2
  {
    (if s.ai.status == Healthy then 1 else 0) + (if s.cv.status == Healthy then 1 else 0)
  }

  datatype Overall = Excellent | Degraded | Critical

  /** The overall health word: two healthy services, one, or none. */
  function OverallStatus(s: Services): (r: Overall)
    ensures r == Excellent <==> s.ai.status == Healthy && s.cv.status == Healthy
    ensures r == Degraded <==> (s.ai.status == Healthy) != (s.cv.status == Healthy)
    ensures r == Critical <==> s.ai.status != Healthy && s.cv.status != Healthy
  {
    var n := HealthyCount(s);
    if n == 2 then Excellent
    else if n == 1 then Degraded
    else Critical
  }

  /** Registration touches no health or retry state, so the overall status is unchanged. */
  lemma RegistrationKeepsHealth(s: Services, serviceName: string, patch: ServicePatch, now: int)
    ensures var r := RegisterService(s, serviceName, patch, now);
      && OverallStatus(r) == OverallStatus(s)
      && forall id :: r.Get(id).status == s.Get(id).status && r.Get(id).retryCount == s.Get(id).retryCount
  {
  }

  /** Two patches applied one after the other: the later one's fields win where it has them. */
  function Then(first: ServicePatch, second: ServicePatch): ServicePatch {
    ServicePatch(
      if second.name.Some? then second.name else first.name,
      if second.url.Some? then second.url else first.url,
      if second.capabilities.Some? then second.capabilities else first.capabilities)
  }

  /** Registering twice is registering once with the combined patch and the later time. */
  lemma RegisterTwice(s: Services, serviceName: string, first: ServicePatch, second: ServicePatch, t1: int, t2: int)
    ensures RegisterService(RegisterService(s, serviceName, first, t1), serviceName, second, t2)
         == RegisterService(s, serviceName, Then(first, second), t2)
  {
  }

  /** Repeating a registration changes nothing more. */
  lemma RegisterIdempotent(s: Services, serviceName: string, patch: ServicePatch, now: int)
    ensures RegisterService(RegisterService(s, serviceName, patch, now), serviceName, patch, now)
         == RegisterService(s, serviceName, patch, now)
  {
    RegisterTwice(s, serviceName, patch, patch, now, now);
    assert Then(patch, patch) == patch;
  }
}
