/** The records of the agent registry. Instants are counted in nanoseconds from
    an arbitrary origin and 0 is the unset instant. */
module RegistryTypes {
  import opened Wrappers

  const UNSET_TIME := 0
  const MINUTE := 60_000_000_000
  const CONTRACT_VERSION := 1

  datatype AgentType = Planner | Researcher | Executor | Reviewer | Specialist | Orchestrator
  datatype LifecycleState = Registered | Enabled | Draining | Disabled | Quarantined
  datatype HealthStatus = HealthUnknown | Healthy | Degraded | Unhealthy
  datatype Locality = Local | Lan | Cloud

  datatype Version = Version(major: nat, minor: nat, patch: nat)
  datatype Capability = Capability(id: string, version: Version, operations: seq<string>)

  /** What an owner configures and the lifecycle never touches. */
  datatype Profile = Profile(
    name: string, agentType: AgentType, runtimeId: string, runtimeType: string, protocol: Version,
    capabilities: seq<Capability>, authorityCeiling: int, autonomyCeiling: int,
    tools: seq<string>, data: seq<string>, folders: seq<string>)

  datatype Health = Health(status: HealthStatus, ready: bool, reason: string, checkedAt: int, freshFor: int)
  datatype Availability = Availability(available: bool, active: int, max: int)
  datatype Performance = Performance(cost: real, p95LatencyMs: int, locality: Locality)
  datatype Reliability = Reliability(
    successes: nat, failures: nat, consecutiveFailures: nat, meanLatencyMs: real, lastOutcomeAt: int)

  datatype Agent = Agent(
    contractVersion: int, owner: string, id: string, profile: Profile, health: Health,
    state: LifecycleState, availability: Availability, performance: Performance,
    reliability: Reliability, revision: nat, createdAt: int, updatedAt: int)

  datatype CapabilityNeed = CapabilityNeed(id: string, min: Option<Version>, max: Option<Version>, operations: seq<string>)

  datatype Request = Request(
    owner: string, taskId: string, capabilities: seq<CapabilityNeed>,
    runtimeId: string, runtimeType: string, minProtocol: Option<Version>, maxProtocol: Option<Version>,
    authority: int, autonomy: int, policyMaxAuthority: int, policyMaxAutonomy: int,
    tools: seq<string>, data: seq<string>, folders: seq<string>, allowedTypes: seq<AgentType>,
    maxCost: Option<real>, requireLocal: bool, allowDegraded: bool)

  datatype Component = Component(name: string, score: real)

  /** An assignment's ID is a digest of the request; digests are taken to be
      injective, so the request stands for the ID. */
  datatype Assignment = Assignment(
    id: Request, owner: string, taskId: string, agentId: string, agentRevision: nat,
    authority: int, autonomy: int, score: real, components: seq<Component>, assignedAt: int)

  datatype Outcome = Outcome(success: bool, latency: int, recordedAt: int)
  datatype AssignmentOutcome = AssignmentOutcome(
    assignment: Request, owner: string, agentId: string, success: bool, latency: int, recordedAt: int)

  datatype Transition = Transition(from: LifecycleState, to: LifecycleState, reason: string, occurredAt: int, revision: nat)

  datatype Error =
    | NotFound | RevisionConflict | AlreadyExists | NoEligibleAgent | InvalidTransition | AssignmentExists | InvalidInput

  datatype Key = Key(owner: string, id: string)
  datatype AssignmentKey = AssignmentKey(owner: string, id: Request)

  function KeyOf(a: Agent): Key {
    Key(a.owner, a.id)
  }

  function AgentKey(a: Assignment): Key {
    Key(a.owner, a.agentId)
  }

  function OwnerKey(owner: string, id: string): string {
    owner + "\0" + id
  }

  /** Joining owner and ID with a NUL loses nothing as long as IDs contain none,
      which is why the maps below are keyed by the pair. */
  lemma {:induction false} OwnerKeyInjective(owner: string, id: string, owner': string, id': string)
    requires '\0' !in id && '\0' !in id' && OwnerKey(owner, id) == OwnerKey(owner', id')
    ensures owner == owner' && id == id'
  {
    var s, t := OwnerKey(owner, id), OwnerKey(owner', id');
    assert id != "" ==> id[|id| - 1] in id && s[|s| - 1] == id[|id| - 1];
    assert id' != "" ==> id'[|id'| - 1] in id' && t[|t| - 1] == id'[|id'| - 1];
    assert id == "" ==> s[|s| - 1] == '\0';
    assert id' == "" ==> t[|t| - 1] == '\0';
    if id != "" && id' != "" {
      assert s[..|s| - 1] == OwnerKey(owner, id[..|id| - 1]);
      assert t[..|t| - 1] == OwnerKey(owner', id'[..|id'| - 1]);
      OwnerKeyInjective(owner, id[..|id| - 1], owner', id'[..|id'| - 1]);
      assert id == id[..|id| - 1] + [id[|id| - 1]] && id' == id'[..|id'| - 1] + [id'[|id'| - 1]];
    } else {
      assert s[..|s| - 1] == owner && t[..|t| - 1] == owner';
    }
  }
}
