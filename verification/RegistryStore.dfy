/** The in-memory repository: four maps under one mutex, so that each of its
    operations is one atomic step from a store to the next. */
module RegistryStore {
  import opened Wrappers
  import opened RegistryTypes
  import opened Sorting
  import opened Text

  datatype Store = Store(
    agents: map<Key, Agent>, transitions: map<Key, seq<Transition>>,
    assignments: map<AssignmentKey, Assignment>, outcomes: map<AssignmentKey, AssignmentOutcome>)

  const EMPTY := Store(map[], map[], map[], map[])

  function Ledger(s: Store, k: Key): seq<Transition> {
    if k in s.transitions then s.transitions[k] else []
  }

  // What each operation does to the store and answers

  function CreateIn(s: Store, agent: Agent): (Store, Result<Agent, Error>) {
    if KeyOf(agent) in s.agents then (s, Err(AlreadyExists))
    else (s.(agents := s.agents[KeyOf(agent) := agent]), Ok(agent))
  }

  function GetIn(s: Store, owner: string, id: string): Result<Agent, Error> {
    if Key(owner, id) in s.agents then Ok(s.agents[Key(owner, id)]) else Err(NotFound)
  }

  function SwapIn(s: Store, agent: Agent, expected: nat): (Store, Result<Agent, Error>) {
    if KeyOf(agent) !in s.agents then (s, Err(NotFound))
    else if s.agents[KeyOf(agent)].revision != expected || agent.revision != expected + 1 then (s, Err(RevisionConflict))
    else (s.(agents := s.agents[KeyOf(agent) := agent]), Ok(agent))
  }

  function TransitionIn(s: Store, agent: Agent, expected: nat, event: Transition): (Store, Result<Agent, Error>) {
    var k := KeyOf(agent);
    if k !in s.agents then (s, Err(NotFound))
    else if s.agents[k].revision != expected || agent.revision != expected + 1 || event.revision != agent.revision
      || event.from != s.agents[k].state || event.to != agent.state then (s, Err(RevisionConflict))
    else (s.(agents := s.agents[k := agent], transitions := s.transitions[k := Ledger(s, k) + [event]]), Ok(agent))
  }

  function AssignmentIn(s: Store, owner: string, id: Request): Result<Assignment, Error> {
    var k := AssignmentKey(owner, id);
    if k in s.assignments then Ok(s.assignments[k]) else Err(NotFound)
  }

  function Reserved(agent: Agent, at: int): Agent {
    agent.(availability := agent.availability.(active := agent.availability.active + 1),
           revision := agent.revision + 1, updatedAt := at)
  }

  function AssignIn(s: Store, a: Assignment): (Store, Result<Agent, Error>) {
    var k := AgentKey(a);
    if AssignmentKey(a.owner, a.id) in s.assignments then (s, Err(AssignmentExists))
    else if k !in s.agents then (s, Err(NotFound))
    else if s.agents[k].revision != a.agentRevision
      || s.agents[k].availability.active >= s.agents[k].availability.max then (s, Err(RevisionConflict))
    else
      var reserved := Reserved(s.agents[k], a.assignedAt);
      (s.(assignments := s.assignments[AssignmentKey(a.owner, a.id) := a], agents := s.agents[k := reserved]), Ok(reserved))
  }

  function OutcomeIn(s: Store, o: AssignmentOutcome, updated: Agent, expected: nat): (Store, Result<Agent, Error>) {
    var ak := AssignmentKey(o.owner, o.assignment);
    if ak !in s.assignments then (s, Err(NotFound))
    else if ak in s.outcomes then (s, Err(RevisionConflict))
    else
      var a := s.assignments[ak];
      var k := Key(o.owner, a.agentId);
      if k !in s.agents then (s, Err(NotFound))
      else if s.agents[k].revision != expected || updated.revision != expected + 1 || updated.id != a.agentId
        || updated.owner != o.owner || o.agentId != a.agentId then (s, Err(RevisionConflict))
      else (s.(outcomes := s.outcomes[ak := o], agents := s.agents[k := updated]), Ok(updated))
  }

  const BY_AGENT_ID: (Agent, Agent) -> bool := (a: Agent, b: Agent) => LexLe(a.id, b.id)

  class MemoryRepository {
    var agents: map<Key, Agent>
    var transitions: map<Key, seq<Transition>>
    var assignments: map<AssignmentKey, Assignment>
    var outcomes: map<AssignmentKey, AssignmentOutcome>

    function State(): Store
      reads this
    {
      Store(agents, transitions, assignments, outcomes)
    }

    constructor ()
      ensures State() == EMPTY
    {
      agents, transitions, assignments, outcomes := map[], map[], map[], map[];
    }

    method Create(agent: Agent) returns (r: Result<Agent, Error>)
      modifies this
      ensures (State(), r) == CreateIn(old(State()), agent)
      ensures r == if KeyOf(agent) in old(agents) then Err(AlreadyExists) else Ok(agent)
      ensures State() == if r.Ok? then old(State()).(agents := old(agents)[KeyOf(agent) := agent]) else old(State())
    {
      if KeyOf(agent) in agents { return Err(AlreadyExists); }
      agents := agents[KeyOf(agent) := agent];
      return Ok(agent);
    }

    method Get(owner: string, id: string) returns (r: Result<Agent, Error>)
      ensures r == GetIn(State(), owner, id)
      ensures r == if Key(owner, id) in agents then Ok(agents[Key(owner, id)]) else Err(NotFound)
    {
      var k := Key(owner, id);
      if k !in agents { return Err(NotFound); }
      return Ok(agents[k]);
    }

    /** The owner's agents, each once, in ID order. */
    method List(owner: string) returns (listed: seq<Agent>)
      requires forall k :: k in agents ==> k == KeyOf(agents[k])
      ensures forall a :: a in listed <==> KeyOf(a) in agents && agents[KeyOf(a)] == a && a.owner == owner
      ensures forall i, j :: 0 <= i < j < |listed| ==> LexLe(listed[i].id, listed[j].id) && listed[i].id != listed[j].id
    {
      var found: seq<Agent> := [];
      var left := agents.Keys;
      while left != {}
        invariant left <= agents.Keys
        invariant forall a :: a in found <==> KeyOf(a) in agents && KeyOf(a) !in left && agents[KeyOf(a)] == a && a.owner == owner
        invariant forall i, j :: 0 <= i < j < |found| ==> found[i].id != found[j].id
        decreases left
      {
        var k :| k in left;
        left := left - {k};
        if agents[k].owner == owner { found := found + [agents[k]]; }
      }
      listed := Sort(found, BY_AGENT_ID);
      SortPermutes(found, BY_AGENT_ID);
      ByAgentIdIsOrder();
      forall i, j | 0 <= i < j < |found| ensures !Ties(found[i], found[j], BY_AGENT_ID) {
        if Ties(found[i], found[j], BY_AGENT_ID) { LexAntisymmetric(found[i].id, found[j].id); }
      }
      SortIsStrict(found, BY_AGENT_ID);
      forall i, j | 0 <= i < j < |listed| ensures LexLe(listed[i].id, listed[j].id) && listed[i].id != listed[j].id {
        assert BY_AGENT_ID(listed[i], listed[j]) && !BY_AGENT_ID(listed[j], listed[i]);
      }
    }

    method CompareAndSwap(agent: Agent, expected: nat) returns (r: Result<Agent, Error>)
      modifies this
      ensures (State(), r) == SwapIn(old(State()), agent, expected)
      ensures r.Ok? <==>
        KeyOf(agent) in old(agents) && old(agents)[KeyOf(agent)].revision == expected && agent.revision == expected + 1
      ensures State() == if r.Ok? then old(State()).(agents := old(agents)[KeyOf(agent) := agent]) else old(State())
    {
      var k := KeyOf(agent);
      if k !in agents { return Err(NotFound); }
      if agents[k].revision != expected { return Err(RevisionConflict); }
      if agent.revision != expected + 1 { return Err(RevisionConflict); }
      agents := agents[k := agent];
      return Ok(agent);
    }

    method RecordTransition(agent: Agent, expected: nat, event: Transition) returns (r: Result<Agent, Error>)
      modifies this
      ensures (State(), r) == TransitionIn(old(State()), agent, expected, event)
      ensures r.Ok? <==>
        && KeyOf(agent) in old(agents) && old(agents)[KeyOf(agent)].revision == expected && agent.revision == expected + 1
        && event.revision == agent.revision && event.from == old(agents)[KeyOf(agent)].state && event.to == agent.state
      ensures State() ==
        if r.Ok? then old(State()).(agents := old(agents)[KeyOf(agent) := agent],
                                    transitions := old(transitions)[KeyOf(agent) := Ledger(old(State()), KeyOf(agent)) + [event]])
        else old(State())
    {
      var k := KeyOf(agent);
      if k !in agents { return Err(NotFound); }
      var current := agents[k];
      if current.revision != expected || agent.revision != expected + 1 || event.revision != agent.revision
        || event.from != current.state || event.to != agent.state {
        return Err(RevisionConflict);
      }
      agents := agents[k := agent];
      transitions := transitions[k := (if k in transitions then transitions[k] else []) + [event]];
      return Ok(agent);
    }

    method CreateAssignment(a: Assignment) returns (r: Result<Agent, Error>)
      modifies this
      ensures (State(), r) == AssignIn(old(State()), a)
      ensures r.Ok? <==>
        && AssignmentKey(a.owner, a.id) !in old(assignments) && Key(a.owner, a.agentId) in old(agents)
        && var agent := old(agents)[Key(a.owner, a.agentId)];
           agent.revision == a.agentRevision && agent.availability.active < agent.availability.max
      ensures r == Err(AssignmentExists) <==> AssignmentKey(a.owner, a.id) in old(assignments)
      ensures assignments == if r.Ok? then old(assignments)[AssignmentKey(a.owner, a.id) := a] else old(assignments)
      ensures agents == if r.Ok? then old(agents)[Key(a.owner, a.agentId) := r.value] else old(agents)
      ensures r.Ok? ==>
        var before := old(agents)[Key(a.owner, a.agentId)];
        && r.value.availability.active == before.availability.active + 1 && r.value.revision == before.revision + 1
        && r.value == before.(availability := r.value.availability, revision := r.value.revision, updatedAt := a.assignedAt)
        && r.value.availability == before.availability.(active := r.value.availability.active)
      ensures transitions == old(transitions) && outcomes == old(outcomes)
    {
      var ak := AssignmentKey(a.owner, a.id);
      if ak in assignments { return Err(AssignmentExists); }
      var k := AgentKey(a);
      if k !in agents { return Err(NotFound); }
      var agent := agents[k];
      if agent.revision != a.agentRevision || agent.availability.active >= agent.availability.max {
        return Err(RevisionConflict);
      }
      assignments := assignments[ak := a];
      agent := agent.(availability := agent.availability.(active := agent.availability.active + 1));
      agent := agent.(revision := agent.revision + 1);
      agent := agent.(updatedAt := a.assignedAt);
      agents := agents[k := agent];
      return Ok(agent);
    }

    method GetAssignment(owner: string, id: Request) returns (r: Result<Assignment, Error>)
      ensures r == AssignmentIn(State(), owner, id)
      ensures r == if AssignmentKey(owner, id) in assignments then Ok(assignments[AssignmentKey(owner, id)]) else Err(NotFound)
    {
      var k := AssignmentKey(owner, id);
      if k !in assignments { return Err(NotFound); }
      return Ok(assignments[k]);
    }

    method RecordAssignmentOutcome(o: AssignmentOutcome, updated: Agent, expected: nat) returns (r: Result<Agent, Error>)
      modifies this
      ensures (State(), r) == OutcomeIn(old(State()), o, updated, expected)
      ensures var ak := AssignmentKey(o.owner, o.assignment);
        r.Ok? <==>
          && ak in old(assignments) && ak !in old(outcomes)
          && var k := Key(o.owner, old(assignments)[ak].agentId);
             && k in old(agents) && old(agents)[k].revision == expected && updated.revision == expected + 1
             && updated.id == k.id && updated.owner == k.owner && o.agentId == k.id
      ensures outcomes == if r.Ok? then old(outcomes)[AssignmentKey(o.owner, o.assignment) := o] else old(outcomes)
      ensures agents == if r.Ok? then old(agents)[Key(updated.owner, updated.id) := updated] else old(agents)
      ensures transitions == old(transitions) && assignments == old(assignments)
    {
      var ak := AssignmentKey(o.owner, o.assignment);
      if ak !in assignments { return Err(NotFound); }
      var a := assignments[ak];
      if ak in outcomes { return Err(RevisionConflict); }
      var k := Key(o.owner, a.agentId);
      if k !in agents { return Err(NotFound); }
      var current := agents[k];
      if current.revision != expected || updated.revision != expected + 1 || updated.id != a.agentId
        || updated.owner != o.owner || o.agentId != a.agentId {
        return Err(RevisionConflict);
      }
      outcomes := outcomes[ak := o];
      agents := agents[k := updated];
      return Ok(updated);
    }
  }

  lemma ByAgentIdIsOrder()
    ensures TotalPreorder(BY_AGENT_ID)
  {
    forall a: Agent, b: Agent ensures BY_AGENT_ID(a, b) || BY_AGENT_ID(b, a) { LexTotal(a.id, b.id); }
    forall a: Agent, b: Agent, c: Agent | BY_AGENT_ID(a, b) && BY_AGENT_ID(b, c) ensures BY_AGENT_ID(a, c) { LexTransitive(a.id, b.id, c.id); }
  }
}
