/** Any number of clients whose reads and commits interleave. Registrations, updates,
    transitions and outcomes are atomic. An assignment is not: it reserves the agent
    that was best in its listing, which another client may have changed, or may have
    made second best, since then. A grant is the reply of the whole assignment at the
    listing, while its slot is taken later; a refused reservation is its reply at no
    instant, and neither is, at times, the answer that nobody is eligible. */
module RegistryClients {
  import opened Wrappers
  import opened RegistryTypes
  import opened RegistryStore
  import opened RegistryRules
  import opened RegistryService
  import opened RegistryHistory

  datatype Pc =
    | Started(call: Call)
    | ToRead(call: Call, assignment: Assignment)              // an outcome whose assignment is read, its agent not yet
    | ToCommit(call: Call, base: Agent, commit: Commit)       // computed from base, not yet committed
    | ToList(call: Call)                                      // a request that had no assignment when it looked
    | ToReserve(call: Call, base: Agent)                      // base was the best of the listing, still to be reserved
    | ToFetch(call: Call)                                     // another client was faster
    | Returned(reply: Reply)

  datatype Logged = Logged(who: nat, call: Call, reply: Reply)

  /** The whole command that a client asked for, with the clock readings it will
      make, and how much was logged when it began. */
  datatype Begun = Begun(call: Call, at: nat)

  /** The log holds the commands in the order of their instants. Late are the clients
      whose answer belongs to an earlier instant of their call, when that much was
      logged, and missed are those whose answer belongs to none; ended tells how
      much was logged on return. */
  datatype System = System(
    store: Store, clients: map<nat, Pc>, log: seq<Logged>,
    began: map<nat, Begun>, ended: map<nat, nat>, late: map<nat, nat>, missed: set<nat>)

  const INITIAL := System(EMPTY, map[], [], map[], map[], map[], {})

  /** A clock may read anything, so its readings are inputs of the beginning. */
  datatype Action =
    | Begin(who: nat, call: Call)
    | Read(who: nat)
    | ReadAgent(who: nat)
    | List(who: nat)
    | Perform(who: nat)
    | Fetch(who: nat)

  ghost predicate Enabled(s: System, a: Action) {
    match a
    case Begin(who, call) => who !in s.clients && call.choice == None
    case Read(who) => who in s.clients && s.clients[who].Started?
    case ReadAgent(who) => who in s.clients && s.clients[who].ToRead? && s.clients[who].call.intent.Record?
    case List(who) => who in s.clients && s.clients[who].ToList? && s.clients[who].call.intent.Assign?
    case Perform(who) => who in s.clients && (s.clients[who].ToCommit? || s.clients[who].ToReserve?) && Committable(s.clients[who])
    case Fetch(who) => who in s.clients && s.clients[who].ToFetch? && s.clients[who].call.intent.Assign?
  }

  predicate Committable(pc: Pc)
    requires pc.ToCommit? || pc.ToReserve?
  {
    match pc
    case ToCommit(call, _, _) => !call.intent.Register? && !call.intent.Assign?
    case ToReserve(call, base) => call.intent.Assign? && base.availability.max != 0
  }

  /** The last part of an assignment that listed this agent. */
  function Reserving(call: Call, base: Agent): Call {
    call.(choice := Some(Choice(base.id, base.revision)))
  }

  function At(s: System, who: nat, pc: Pc): System {
    s.(clients := s.clients[who := pc])
  }

  /** The whole command, run when that much was logged, answers this. */
  ghost predicate RightAt(c: Checks, log: seq<Logged>, at: nat, call: Call, reply: Reply)
    requires at <= |log|
  {
    Exec(c, StoreAfter(c, log[..at]), call).1 == reply
  }

  ghost predicate RightBefore(c: Checks, s: System, who: nat, call: Call, reply: Reply) {
    exists at :: Spans(s, who, at) && RightAt(c, s.log, at, call, reply)
  }

  /** An instant of the client's call so far. */
  predicate Spans(s: System, who: nat, at: nat) {
    who in s.began && s.began[who].at <= at <= |s.log|
  }

  /** Told what the whole command would not answer now. */
  ghost function Tell(c: Checks, s: System, who: nat, call: Call, reply: Reply): System {
    var t := At(s, who, Returned(reply)).(ended := s.ended[who := |s.log|]);
    if RightBefore(c, s, who, call, reply) then
      var at :| Spans(s, who, at) && RightAt(c, s.log, at, call, reply);
      t.(late := s.late[who := at])
    else t.(missed := s.missed + {who})
  }

  /** The call returns: its reply and its instant are now fixed. */
  function Return(s: System, who: nat, store: Store, call: Call, reply: Reply): System {
    s.(store := store, clients := s.clients[who := Returned(reply)], log := s.log + [Logged(who, call, reply)],
       ended := s.ended[who := |s.log| + 1])
  }

  function FromAgent(c: Checks, s: System, who: nat, call: Call, found: Result<Agent, Error>): System
    requires !call.intent.Register? && !call.intent.Assign?
  {
    match found
    case Err(e) => Return(s, who, s.store, call, Failed(e))
    case Ok(current) =>
      match PrepareOn(c, s.store, current, call)
      case Err(e) => Return(s, who, s.store, call, Failed(e))
      case Ok(commit) => At(s, who, ToCommit(call, current, commit))
  }

  ghost function FirstRead(c: Checks, s: System, who: nat, call: Call): System {
    match call.intent
    case Register(input) => var (t, reply) := RegisterIn(c, s.store, input, call.now); Return(s, who, t, call, reply)
    case Update(owner, replacement, _) => FromAgent(c, s, who, call, ServiceGet(c, s.store, owner, replacement.id))
    case Transit(owner, id, _, _, _) => FromAgent(c, s, who, call, ServiceGet(c, s.store, owner, id))
    case Record(owner, assignment, _, _) =>
      (match ServiceGetAssignment(c, s.store, owner, assignment)
       case Err(e) => Return(s, who, s.store, call, Failed(e))
       case Ok(a) => At(s, who, ToRead(call, a)))
    case Assign(r) =>
      if !ValidateRequest(c, r) then Return(s, who, s.store, call, Failed(InvalidInput))
      else match AssignmentIn(s.store, r.owner, r)
        case Ok(a) => Return(s, who, s.store, call, Granted(a))
        case Err(_) => At(s, who, ToList(call))
  }

  ghost function Step(c: Checks, s: System, a: Action): System
    requires Enabled(s, a)
  {
    match a
    case Begin(who, call) => At(s, who, Started(call)).(began := s.began[who := Begun(call, |s.log|)])
    case Read(who) => FirstRead(c, s, who, s.clients[who].call)
    case ReadAgent(who) =>
      var call := s.clients[who].call;
      FromAgent(c, s, who, call, ServiceGet(c, s.store, call.intent.owner, s.clients[who].assignment.agentId))
    case List(who) =>
      var call := s.clients[who].call;
      var r := call.intent.request;
      (match BestPick(s.store, r, call.now)
       case None =>
         if AssignmentKey(r.owner, r) in s.store.assignments
         then Tell(c, s, who, call, Failed(NoEligibleAgent))
         else Return(s, who, s.store, call, Failed(NoEligibleAgent))
       case Some(pick) => At(s, who, ToReserve(call, s.store.agents[Key(r.owner, pick.id)])))
    case Perform(who) =>
      (match s.clients[who]
       case ToCommit(call, base, commit) =>
         var (t, r) := CommitIn(s.store, commit, Expected(call.intent));
         Return(s, who, t, call, AgentReply(r))
       case ToReserve(call, base) =>
         var assignment := NewAssignment(call.intent.request, base, call.now);
         (match AssignIn(s.store, assignment)
          case (t, Ok(_)) => Return(s, who, t, Reserving(call, base), Granted(assignment))
          case (t, Err(AssignmentExists)) => At(s, who, ToFetch(call))
          case (t, Err(e)) => Tell(c, s, who, call, Failed(e))))
    case Fetch(who) =>
      var call := s.clients[who].call;
      match AssignmentIn(s.store, call.intent.request.owner, call.intent.request)
      case Ok(assignment) => Return(s, who, s.store, call, Granted(assignment))
      case Err(e) => Return(s, who, s.store, call, Failed(e))
  }

  /** An action that is not enabled does not happen. */
  ghost function Run(c: Checks, s: System, actions: seq<Action>): System {
    if actions == [] then s
    else
      var before, last := Run(c, s, actions[..|actions| - 1]), actions[|actions| - 1];
      if Enabled(before, last) then Step(c, before, last) else before
  }

  // How the store grows

  predicate Newer(now: Agent, before: Agent) {
    now.revision > before.revision || now == before
  }

  ghost predicate Grows(s: Store, t: Store) {
    && (forall k :: k in s.agents ==> k in t.agents && Newer(t.agents[k], s.agents[k]))
    && (forall ak :: ak in s.assignments ==> ak in t.assignments && t.assignments[ak] == s.assignments[ak])
  }

  lemma EffectGrows(c: Checks, s: Store, call: Call, e: Effect)
    requires Legal(c, s, call, e)
    ensures Grows(s, After(s, e))
  {
    hide SoundAgent, Follows, Registration, After;
    if e.Unchanged? {
      UnchangedGrows(s, e);
    } else {
      LegalRecord(c, s, call, e);
      LegalMaps(c, s, call, e);
      if e.Reserves? { LegalNewKey(c, s, call, e); }
    }
  }

  lemma UnchangedGrows(s: Store, e: Effect)
    requires e.Unchanged?
    ensures After(s, e) == s && Grows(s, s)
  {}

  lemma LegalNewKey(c: Checks, s: Store, call: Call, e: Effect)
    requires Legal(c, s, call, e) && e.Reserves?
    ensures AssignmentKey(e.assignment.owner, e.assignment.id) !in s.assignments
  {
    hide SoundAgent, Follows, Registration, NewAssignment;
  }

  lemma ExecGrows(c: Checks, s: Store, call: Call)
    requires WellFormed(c, s)
    ensures WellFormed(c, Exec(c, s, call).0) && Grows(s, Exec(c, s, call).0)
  {
    hide WellFormed, Exec, Legal, Grows, After;
    var e := ExecEffect(c, s, call);
    EffectKeepsWellFormed(c, s, call, e);
    EffectGrows(c, s, call, e);
  }

  lemma GrowsTransitive(s: Store, t: Store, u: Store)
    requires Grows(s, t) && Grows(t, u)
    ensures Grows(s, u)
  {}

  // What a client in the middle of a command knows

  /** What was read is still what the store holds under that revision. */
  ghost predicate Knows(c: Checks, s: Store, pc: Pc) {
    (!pc.Returned? ==> pc.call.choice == None) &&
    match pc
    case ToRead(call, a) =>
      && call.intent.Record? && ServiceGetAssignment(c, s, call.intent.owner, call.intent.assignment) == Ok(a)
    case ToCommit(call, base, commit) =>
      && !call.intent.Register? && !call.intent.Assign?
      && KeyOf(base) in s.agents && Newer(s.agents[KeyOf(base)], base)
      && ReadIn(c, s, call.intent) == Ok(s.agents[KeyOf(base)])
      && PrepareOn(c, s, base, call) == Ok(commit)
    case ToList(call) =>
      call.intent.Assign? && ValidateRequest(c, call.intent.request)
    case ToReserve(call, base) =>
      && call.intent.Assign? && ValidateRequest(c, call.intent.request)
      && base.owner == call.intent.request.owner
      && KeyOf(base) in s.agents && Newer(s.agents[KeyOf(base)], base)
      && Candidate(base, call.intent.request, call.now)
    case ToFetch(call) =>
      && call.intent.Assign? && ValidateRequest(c, call.intent.request)
      && AssignmentKey(call.intent.request.owner, call.intent.request) in s.assignments
    case _ => true
  }

  ghost predicate Invariant(c: Checks, s: System) {
    WellFormed(c, s.store) && forall who :: who in s.clients ==> Knows(c, s.store, s.clients[who])
  }

  lemma ReadStays(c: Checks, s: Store, t: Store, i: Intent, k: Key)
    requires WellFormed(c, s) && WellFormed(c, t) && Grows(s, t) && !i.Register? && !i.Assign?
    requires k in s.agents && ReadIn(c, s, i) == Ok(s.agents[k])
    ensures ReadIn(c, t, i) == Ok(t.agents[k])
  {
    hide SoundAgent, ValidIdentity, ValidIdentifier, Text.Trim;
  }

  lemma PreparationStays(c: Checks, s: Store, t: Store, base: Agent, call: Call)
    requires Grows(s, t) && !call.intent.Register? && !call.intent.Assign?
    requires PrepareOn(c, s, base, call).Ok?
    ensures PrepareOn(c, t, base, call) == PrepareOn(c, s, base, call)
  {
    hide PrepareUpdate, PrepareTransit, PrepareRecord, ValidIdentity;
  }

  lemma KnowledgeStays(c: Checks, s: Store, t: Store, pc: Pc)
    requires WellFormed(c, s) && WellFormed(c, t) && Grows(s, t) && Knows(c, s, pc)
    ensures Knows(c, t, pc)
  {
    hide WellFormed, ReadIn, PrepareOn, ValidateRequest, Candidate, ValidIdentity;
    if pc.ToCommit? {
      ReadStays(c, s, t, pc.call.intent, KeyOf(pc.base));
      PreparationStays(c, s, t, pc.base, pc.call);
    }
  }

  // Every reply belongs to one instant

  /** The step either returns what a command does at this instant, or
      leaves the store alone and returns nothing. */
  ghost predicate Instant(c: Checks, s: System, t: System) {
    || (t.store == s.store && t.log == s.log)
    || exists who, call, reply ::
         t.log == s.log + [Logged(who, call, reply)] && (t.store, reply) == Exec(c, s.store, call)
  }

  lemma ReturnsAtInstant(c: Checks, s: System, who: nat, store: Store, call: Call, reply: Reply)
    requires (store, reply) == Exec(c, s.store, call)
    ensures Instant(c, s, Return(s, who, store, call, reply))
  {
    hide Exec;
    assert Return(s, who, store, call, reply).log == s.log + [Logged(who, call, reply)];
  }

  /** A replacement computed from a stale read is refused exactly as the whole
      command would be; one computed from a current read is what it would compute. */
  lemma CommitIsAtomic(c: Checks, s: Store, call: Call, base: Agent, commit: Commit)
    requires !call.intent.Register? && !call.intent.Assign? && WellFormed(c, s) && Knows(c, s, ToCommit(call, base, commit))
    ensures var (t, r) := CommitIn(s, commit, Expected(call.intent)); (t, AgentReply(r)) == Exec(c, s, call)
  {
    hide SoundAgent, ReadIn, PrepareOn;
    var current := s.agents[KeyOf(base)];
    PreparedFrom(c, s, base, call, commit);
    if current != base {
      StaleIsRefused(c, s, call, base, commit);
    }
  }

  lemma PreparedFrom(c: Checks, s: Store, base: Agent, call: Call, commit: Commit)
    requires WellFormed(c, s) && !call.intent.Register? && !call.intent.Assign? && PrepareOn(c, s, base, call) == Ok(commit)
    ensures base.revision == Expected(call.intent)
    ensures KeyOf(commit.agent) == KeyOf(base)
    ensures commit.Close? ==> AssignmentKey(commit.result.owner, commit.result.assignment) in s.assignments
    ensures commit.Close? ==> var a := s.assignments[AssignmentKey(commit.result.owner, commit.result.assignment)];
      commit.result.agentId == a.agentId && commit.result.owner == a.owner
  {
    hide SoundAgent, RegistryRules.NormalizeProfile, WithOutcome, ValidIdentity, ValidateAgent, AgentReady, TransitionAllowed, ValidText;
  }

  lemma StaleIsRefused(c: Checks, s: Store, call: Call, base: Agent, commit: Commit)
    requires !call.intent.Register? && !call.intent.Assign? && WellFormed(c, s) && Knows(c, s, ToCommit(call, base, commit))
    requires s.agents[KeyOf(base)] != base
    ensures CommitIn(s, commit, Expected(call.intent)) == (s, Err(RevisionConflict))
    ensures Exec(c, s, call) == (s, Failed(RevisionConflict))
  {
    hide SoundAgent, PrepareOn, ReadIn, WellFormed;
    PreparedFrom(c, s, base, call, commit);
    StaleCommit(c, s, base, commit);
    StalePreparation(c, s, s.agents[KeyOf(base)], base, call);
  }

  lemma StaleCommit(c: Checks, s: Store, base: Agent, commit: Commit)
    requires WellFormed(c, s) && KeyOf(commit.agent) == KeyOf(base) && KeyOf(base) in s.agents
    requires s.agents[KeyOf(base)].revision != base.revision
    requires commit.Close? ==> AssignmentKey(commit.result.owner, commit.result.assignment) in s.assignments
    ensures CommitIn(s, commit, base.revision) == (s, Err(RevisionConflict))
  {
    hide SoundAgent;
  }

  lemma StalePreparation(c: Checks, s: Store, current: Agent, base: Agent, call: Call)
    requires !call.intent.Register? && !call.intent.Assign? && PrepareOn(c, s, base, call).Ok?
    requires current.revision != base.revision
    ensures PrepareOn(c, s, current, call) == Err(RevisionConflict)
  {
    hide RegistryRules.NormalizeProfile, WithOutcome, ValidIdentity, ValidateAgent, AgentReady, TransitionAllowed, ValidText;
  }

  /** A reservation does what the last part of the assignment says, in one instant. */
  lemma ReserveIsLastPart(c: Checks, s: Store, call: Call, base: Agent)
    requires WellFormed(c, s) && Knows(c, s, ToReserve(call, base)) && base.availability.max != 0
    requires AssignIn(s, NewAssignment(call.intent.request, base, call.now)).1 != Err(AssignmentExists)
    ensures var a := NewAssignment(call.intent.request, base, call.now);
      var (t, r) := AssignIn(s, a);
      (t, if r.Ok? then Granted(a) else Failed(r.error)) == Exec(c, s, Reserving(call, base))
  {
    hide SoundAgent, ValidateRequest, Candidate, Components, Score;
    CandidateHasRoom(base, call.intent.request, call.now);
  }

  /** For a request without an assignment, reserving what was listed is the whole
      assignment of that instant, in store and reply, if and only if the listed
      agent is still the best choice there. */
  lemma ReserveIsWholeIff(c: Checks, s: Store, call: Call, base: Agent)
    requires WellFormed(c, s) && Knows(c, s, ToReserve(call, base)) && base.availability.max != 0
    requires AssignmentKey(call.intent.request.owner, call.intent.request) !in s.assignments
    ensures var a := NewAssignment(call.intent.request, base, call.now);
      var (t, r) := AssignIn(s, a);
      (t, if r.Ok? then Granted(a) else Failed(r.error)) == Exec(c, s, call)
      <==> BestChoice(s, call.intent.request, call.now, Choice(base.id, base.revision))
  {
    hide SoundAgent, ValidateRequest, Candidate, BestPick, BestChoice, NewAssignment;
    NewAssignmentKey(call.intent.request, base, call.now);
    ReserveIsLastPart(c, s, call, base);
    ListedIsWholeIff(c, s, call.intent.request, call.now, Choice(base.id, base.revision));
  }

  lemma ListedIsWholeIff(c: Checks, s: Store, r: Request, now: int, pick: Choice)
    requires KeysMatch(s) && ValidateRequest(c, r) && AssignmentKey(r.owner, r) !in s.assignments
    ensures ReserveListed(c, s, r, now, pick) == AssignWhole(c, s, r, now) <==> BestChoice(s, r, now, pick)
  {
    hide ValidateRequest, Candidate, Components, Score, BestPick;
    var best := BestPick(s, r, now);
    if BestChoice(s, r, now, pick) {
      BestIsPicked(s, r, now, pick);
      WholeReservesPick(c, s, r, now, pick);
    } else if best.Some? && best.value.id == pick.id {
      assert s.agents[Key(r.owner, pick.id)].revision != pick.revision;
    }
  }

  lemma FromAgentIsAtomic(c: Checks, s: System, who: nat, call: Call, found: Result<Agent, Error>)
    requires WellFormed(c, s.store) && !call.intent.Register? && !call.intent.Assign? && call.choice == None
    requires ReadIn(c, s.store, call.intent) == found
    ensures var t := FromAgent(c, s, who, call, found);
      Instant(c, s, t) && t.store == s.store && t.clients.Keys == s.clients.Keys + {who} && Knows(c, s.store, t.clients[who])
      && forall w :: w in s.clients && w != who ==> t.clients[w] == s.clients[w]
  {
    hide SoundAgent, PrepareOn, Exec;
    ReadFailureIsAtomic(c, s.store, call, found);
    match found
    case Err(e) => ReturnsAtInstant(c, s, who, s.store, call, Failed(e));
    case Ok(current) =>
      FoundIsStored(c, s.store, call.intent, current);
      match PrepareOn(c, s.store, current, call)
      case Err(e) => ReturnsAtInstant(c, s, who, s.store, call, Failed(e));
      case Ok(_) =>
  }

  lemma ReadFailureIsAtomic(c: Checks, s: Store, call: Call, found: Result<Agent, Error>)
    requires !call.intent.Register? && !call.intent.Assign? && ReadIn(c, s, call.intent) == found
    ensures found.Err? ==> Exec(c, s, call) == (s, Failed(found.error))
    ensures found.Ok? && PrepareOn(c, s, found.value, call).Err? ==>
      Exec(c, s, call) == (s, Failed(PrepareOn(c, s, found.value, call).error))
  {
    hide ReadIn, PrepareOn;
  }

  lemma FoundIsStored(c: Checks, s: Store, i: Intent, current: Agent)
    requires WellFormed(c, s) && !i.Register? && !i.Assign? && ReadIn(c, s, i) == Ok(current)
    ensures KeyOf(current) in s.agents && s.agents[KeyOf(current)] == current
  {
    hide SoundAgent, ValidIdentity, ValidIdentifier, Text.Trim;
  }

  /** One step: an instant, and only one client moves on, knowing what it must. */
  ghost predicate OneMoves(c: Checks, s: System, t: System, who: nat) {
    && Instant(c, s, t)
    && t.clients.Keys == s.clients.Keys + {who}
    && Knows(c, t.store, t.clients[who])
    && forall w :: w in s.clients && w != who ==> t.clients[w] == s.clients[w]
  }

  lemma ReturnMoves(c: Checks, s: System, who: nat, store: Store, call: Call, reply: Reply)
    requires (store, reply) == Exec(c, s.store, call)
    ensures OneMoves(c, s, Return(s, who, store, call, reply), who)
  {
    hide Exec, Instant;
    ReturnsAtInstant(c, s, who, store, call, reply);
  }

  lemma ReadMoves(c: Checks, s: System, who: nat, call: Call)
    requires WellFormed(c, s.store) && call.choice == None
    ensures OneMoves(c, s, FirstRead(c, s, who, call), who)
  {
    hide WellFormed, PrepareOn, ValidateRequest, ValidIdentity, ValidIdentifier, FromAgent, ServiceGet, Return, RegisterIn;
    match call.intent {
      case Register(input) =>
        var (t, reply) := RegisterIn(c, s.store, input, call.now);
        ReturnMoves(c, s, who, t, call, reply);
      case Update(owner, replacement, _) => FromAgentIsAtomic(c, s, who, call, ServiceGet(c, s.store, owner, replacement.id));
      case Transit(owner, id, _, _, _) => FromAgentIsAtomic(c, s, who, call, ServiceGet(c, s.store, owner, id));
      case Record(owner, assignment, _, _) =>
        var found := ServiceGetAssignment(c, s.store, owner, assignment);
        if found.Err? { ReturnMoves(c, s, who, s.store, call, Failed(found.error)); }
      case Assign(r) =>
        if !ValidateRequest(c, r) {
          ReturnMoves(c, s, who, s.store, call, Failed(InvalidInput));
        } else if AssignmentKey(r.owner, r) in s.store.assignments {
          ReturnMoves(c, s, who, s.store, call, Granted(s.store.assignments[AssignmentKey(r.owner, r)]));
        }
    }
  }

  lemma TellMoves(c: Checks, s: System, who: nat, call: Call, reply: Reply)
    ensures OneMoves(c, s, Tell(c, s, who, call, reply), who)
  {
    hide Instant, RightBefore, RightAt;
    NoInstant(c, s, Tell(c, s, who, call, reply));
  }

  lemma ListMoves(c: Checks, s: System, who: nat)
    requires WellFormed(c, s.store) && Enabled(s, List(who)) && Knows(c, s.store, s.clients[who])
    ensures OneMoves(c, s, Step(c, s, List(who)), who)
  {
    hide SoundAgent, ValidateRequest, Candidate, Beats, BestPick, Return, Tell, Instant;
    var call := s.clients[who].call;
    var r := call.intent.request;
    var pick := BestPick(s.store, r, call.now);
    if pick == None {
      TellMoves(c, s, who, call, Failed(NoEligibleAgent));
      if AssignmentKey(r.owner, r) !in s.store.assignments { ReturnMoves(c, s, who, s.store, call, Failed(NoEligibleAgent)); }
    } else {
      NoInstant(c, s, At(s, who, ToReserve(call, s.store.agents[Key(r.owner, pick.value.id)])));
    }
  }

  lemma PerformMoves(c: Checks, s: System, who: nat)
    requires WellFormed(c, s.store) && Enabled(s, Perform(who)) && Knows(c, s.store, s.clients[who])
    ensures OneMoves(c, s, Step(c, s, Perform(who)), who)
  {
    hide SoundAgent, ValidateRequest, Candidate, PrepareOn, ReadIn, Exec, Return, CommitIn, NewAssignment, Instant;
    match s.clients[who] {
      case ToCommit(call, base, commit) =>
        CommitIsAtomic(c, s.store, call, base, commit);
        var (t, r) := CommitIn(s.store, commit, Expected(call.intent));
        ReturnMoves(c, s, who, t, call, AgentReply(r));
      case ToReserve(call, base) =>
        var a := NewAssignment(call.intent.request, base, call.now);
        var (t, r) := AssignIn(s.store, a);
        if r == Err(AssignmentExists) {
          NewAssignmentKey(call.intent.request, base, call.now);
          NoInstant(c, s, At(s, who, ToFetch(call)));
        } else {
          ReserveIsLastPart(c, s.store, call, base);
          if r.Ok? { ReturnMoves(c, s, who, t, Reserving(call, base), Granted(a)); }
          else { TellMoves(c, s, who, call, Failed(r.error)); }
        }
    }
  }

  lemma NewAssignmentKey(r: Request, a: Agent, now: int)
    requires a.availability.max != 0
    ensures var n := NewAssignment(r, a, now); n.owner == r.owner && n.id == r && n.agentId == a.id && n.agentRevision == a.revision
  {
    hide Components, Score;
  }

  lemma NoInstant(c: Checks, s: System, t: System)
    requires t.store == s.store && t.log == s.log
    ensures Instant(c, s, t)
  {}

  lemma FetchMoves(c: Checks, s: System, who: nat)
    requires WellFormed(c, s.store) && Enabled(s, Fetch(who)) && Knows(c, s.store, s.clients[who])
    ensures OneMoves(c, s, Step(c, s, Fetch(who)), who)
  {
    hide SoundAgent, ValidateRequest, Candidate, Return, Instant;
    var call := s.clients[who].call;
    var r := call.intent.request;
    ReturnMoves(c, s, who, s.store, call, Granted(s.store.assignments[AssignmentKey(r.owner, r)]));
  }

  lemma StepMoves(c: Checks, s: System, a: Action)
    requires Enabled(s, a) && Invariant(c, s)
    ensures OneMoves(c, s, Step(c, s, a), a.who)
  {
    hide WellFormed, FirstRead, OneMoves, Instant, PrepareOn, ReadIn, ValidateRequest, Candidate, ServiceGetAssignment;
    match a {
      case Begin(who, call) => BeginMoves(c, s, who, call, s.began[who := Begun(call, |s.log|)]);
      case Read(who) => ReadMoves(c, s, who, s.clients[who].call);
      case ReadAgent(who) => ReadAgentMoves(c, s, who);
      case List(who) => ListMoves(c, s, who);
      case Perform(who) => PerformMoves(c, s, who);
      case Fetch(who) => FetchMoves(c, s, who);
    }
  }

  lemma BeginMoves(c: Checks, s: System, who: nat, call: Call, began: map<nat, Begun>)
    requires call.choice == None
    ensures OneMoves(c, s, At(s, who, Started(call)).(began := began), who)
  {
    NoInstant(c, s, At(s, who, Started(call)).(began := began));
  }

  lemma ReadAgentMoves(c: Checks, s: System, who: nat)
    requires WellFormed(c, s.store) && Enabled(s, ReadAgent(who)) && Knows(c, s.store, s.clients[who])
    ensures OneMoves(c, s, Step(c, s, ReadAgent(who)), who)
  {
    hide WellFormed, PrepareOn, ServiceGet, FromAgent, Instant;
    var call := s.clients[who].call;
    FromAgentIsAtomic(c, s, who, call, ServiceGet(c, s.store, call.intent.owner, s.clients[who].assignment.agentId));
  }

  lemma StepKeepsInvariant(c: Checks, s: System, a: Action)
    requires Enabled(s, a) && Invariant(c, s)
    ensures Invariant(c, Step(c, s, a)) && Grows(s.store, Step(c, s, a).store) && Instant(c, s, Step(c, s, a))
  {
    hide WellFormed, Knows, Step, Enabled, Exec, Grows;
    StepMoves(c, s, a);
    var t := Step(c, s, a);
    if t.store == s.store && t.log == s.log {
      SameGrows(s.store);
    } else {
      var who, call, reply :| t.log == s.log + [Logged(who, call, reply)] && (t.store, reply) == Exec(c, s.store, call);
      ExecGrows(c, s.store, call);
    }
    forall w | w in t.clients ensures Knows(c, t.store, t.clients[w]) {
      if w != a.who { KnowledgeStays(c, s.store, t.store, s.clients[w]); }
    }
  }

  lemma SameGrows(s: Store)
    ensures Grows(s, s)
  {}

  lemma {:induction false} RunKeepsInvariant(c: Checks, actions: seq<Action>)
    ensures Invariant(c, Run(c, INITIAL, actions))
  {
    hide Step, Enabled, WellFormed, Knows;
    if actions == [] {
      NothingHappened(c);
    } else {
      RunKeepsInvariant(c, actions[..|actions| - 1]);
      var s, a := Run(c, INITIAL, actions[..|actions| - 1]), actions[|actions| - 1];
      if Enabled(s, a) { StepKeepsInvariant(c, s, a); }
    }
  }

  lemma NothingHappened(c: Checks)
    ensures WellFormed(c, INITIAL.store) && INITIAL.clients == map[]
  {}

  // The theorems

  function CallsOf(log: seq<Logged>): seq<Call> {
    if log == [] then [] else CallsOf(log[..|log| - 1]) + [log[|log| - 1].call]
  }

  ghost function StoreAfter(c: Checks, log: seq<Logged>): Store {
    RunCalls(c, CallsOf(log)).store
  }

  /** Each reply in the log is that of the logged command at its place. */
  ghost predicate Atomic(c: Checks, log: seq<Logged>) {
    forall i :: 0 <= i < |log| ==> log[i].reply == Exec(c, StoreAfter(c, log[..i]), log[i].call).1
  }

  lemma LogGrows(c: Checks, log: seq<Logged>, x: Logged)
    ensures StoreAfter(c, log + [x]) == Exec(c, StoreAfter(c, log), x.call).0
  {
    hide Exec;
    assert (log + [x])[..|log|] == log;
    var calls := CallsOf(log);
    assert (calls + [x.call])[..|calls|] == calls;
  }

  lemma AtomicGrows(c: Checks, log: seq<Logged>, x: Logged)
    requires Atomic(c, log) && x.reply == Exec(c, StoreAfter(c, log), x.call).1
    ensures Atomic(c, log + [x])
  {
    hide Exec, StoreAfter;
    var longer := log + [x];
    forall i | 0 <= i < |longer| ensures longer[i].reply == Exec(c, StoreAfter(c, longer[..i]), longer[i].call).1 {
      if i < |log| { assert longer[..i] == log[..i]; } else { assert longer[..i] == log; }
    }
  }

  /** However reads and commits interleave, the store and the logged replies are those
      of the logged commands executed one after the other: whole ones, and the last
      parts of assignments that make fresh grants. */
  lemma {:induction false} InterleavedRunsAreAtomic(c: Checks, actions: seq<Action>)
    ensures var s := Run(c, INITIAL, actions);
      s.store == StoreAfter(c, s.log) && Atomic(c, s.log)
  {
    hide Step, Enabled, WellFormed, Knows, Exec, StoreAfter;
    if actions == [] {
      NothingLogged(c);
    } else {
      var n := |actions| - 1;
      InterleavedRunsAreAtomic(c, actions[..n]);
      RunKeepsInvariant(c, actions[..n]);
      var s, a := Run(c, INITIAL, actions[..n]), actions[n];
      if Enabled(s, a) {
        StepKeepsInvariant(c, s, a);
        InstantIsAtomic(c, s, Step(c, s, a));
      }
    }
  }

  lemma NothingLogged(c: Checks)
    ensures StoreAfter(c, []) == EMPTY
  {}

  lemma InstantIsAtomic(c: Checks, s: System, t: System)
    requires s.store == StoreAfter(c, s.log) && Atomic(c, s.log) && Instant(c, s, t)
    ensures t.store == StoreAfter(c, t.log) && Atomic(c, t.log)
  {
    hide Exec, StoreAfter, Atomic;
    if t.store != s.store || t.log != s.log {
      var who, call, reply :| t.log == s.log + [Logged(who, call, reply)] && (t.store, reply) == Exec(c, s.store, call);
      LogGrows(c, s.log, Logged(who, call, reply));
      AtomicGrows(c, s.log, Logged(who, call, reply));
    }
  }

  /** In every interleaving an agent's revisions only grow and one revision is one
      record, and an assignment once made is never changed. */
  lemma {:induction false} RecordsAreNeverReused(c: Checks, actions: seq<Action>, n: nat)
    requires n <= |actions|
    ensures Grows(Run(c, INITIAL, actions[..n]).store, Run(c, INITIAL, actions).store)
  {
    hide Step, Enabled, Invariant, Grows;
    if n == |actions| {
      assert actions[..n] == actions;
      SameGrows(Run(c, INITIAL, actions).store);
    } else {
      var m := |actions| - 1;
      assert actions[..m][..n] == actions[..n];
      RecordsAreNeverReused(c, actions[..m], n);
      RunKeepsInvariant(c, actions[..m]);
      var s := Run(c, INITIAL, actions[..m]);
      if Enabled(s, actions[m]) {
        StepKeepsInvariant(c, s, actions[m]);
        GrowsTransitive(Run(c, INITIAL, actions[..n]).store, s.store, Step(c, s, actions[m]).store);
      }
    }
  }

  lemma {:induction false} LaterStoresGrow(c: Checks, log: seq<Logged>, n: nat)
    requires n <= |log|
    ensures Grows(StoreAfter(c, log[..n]), StoreAfter(c, log))
  {
    hide Exec, Grows, StoreAfter;
    if n == |log| {
      assert log[..n] == log;
      SameGrows(StoreAfter(c, log));
    } else {
      var m := |log| - 1;
      assert log[..m][..n] == log[..n] && log[..m] + [log[m]] == log;
      LaterStoresGrow(c, log[..m], n);
      StoreIsWellFormed(c, log[..m]);
      LogGrows(c, log[..m], log[m]);
      ExecGrows(c, StoreAfter(c, log[..m]), log[m].call);
      GrowsTransitive(StoreAfter(c, log[..n]), StoreAfter(c, log[..m]), StoreAfter(c, log));
    }
  }

  lemma StoreIsWellFormed(c: Checks, log: seq<Logged>)
    ensures WellFormed(c, StoreAfter(c, log))
  {
    hide WellFormed, Histories, LedgersMatch, Counted;
    RegistryHistory.RunKeepsInvariant(c, CallsOf(log));
  }

  lemma WellFormedKeys(c: Checks, s: Store)
    requires WellFormed(c, s)
    ensures KeysMatch(s)
  {
    hide SoundAgent;
  }

  lemma GrantedMeansStored(c: Checks, s: Store, call: Call)
    requires WellFormed(c, s)
    requires call.intent.Assign? && Exec(c, s, call).1.Granted?
    ensures var r := call.intent.request;
      var k := AssignmentKey(r.owner, r);
      && ValidateRequest(c, r) && k in Exec(c, s, call).0.assignments
      && Exec(c, s, call).0.assignments[k] == Exec(c, s, call).1.assignment
  {
    hide SoundAgent, ValidateRequest, Candidate, Components, Score, NobodyEligible;
    var reserve := WholeIsReserve(c, s, call);
    if reserve.choice.Some? {
      var k := Key(call.intent.request.owner, reserve.choice.value.id);
      if k in s.agents && Candidate(s.agents[k], call.intent.request, call.now) {
        CandidateHasRoom(s.agents[k], call.intent.request, call.now);
      }
    }
  }

  lemma AssignedIsAnswered(c: Checks, s: Store, call: Call)
    requires call.intent.Assign? && ValidateRequest(c, call.intent.request)
    requires AssignmentKey(call.intent.request.owner, call.intent.request) in s.assignments
    ensures Exec(c, s, call) == (s, Granted(s.assignments[AssignmentKey(call.intent.request.owner, call.intent.request)]))
  {
    hide ValidateRequest, Candidate, NobodyEligible;
  }

  /** Once a request is granted, every further execution of it returns the same
      assignment and reserves nothing. */
  lemma RepeatedAssignReservesNothing(c: Checks, actions: seq<Action>, i: nat, j: nat)
    requires var log := Run(c, INITIAL, actions).log;
      && i < j < |log| && log[i].reply.Granted? && log[i].call.intent.Assign? && log[j].call.intent == log[i].call.intent
    ensures var log := Run(c, INITIAL, actions).log;
      log[j].reply == log[i].reply && StoreAfter(c, log[..j + 1]) == StoreAfter(c, log[..j])
  {
    hide Exec, StoreAfter, Run, ValidateRequest, Newer, WellFormed;
    InterleavedRunsAreAtomic(c, actions);
    var log := Run(c, INITIAL, actions).log;
    var before := StoreAfter(c, log[..j]);
    StoreIsWellFormed(c, log[..i]);
    GrantedMeansStored(c, StoreAfter(c, log[..i]), log[i].call);
    LogGrows(c, log[..i], log[i]);
    assert log[..i] + [log[i]] == log[..i + 1] && log[..j] + [log[j]] == log[..j + 1];
    assert log[..j][..i + 1] == log[..i + 1];
    LaterStoresGrow(c, log[..j], i + 1);
    AssignedIsAnswered(c, before, log[j].call);
    LogGrows(c, log[..j], log[j]);
  }

  /** The entry made a new assignment. */
  ghost predicate Fresh(c: Checks, log: seq<Logged>, i: nat)
    requires i < |log|
  {
    && log[i].call.intent.Assign? && log[i].reply.Granted?
    && AssignmentKey(log[i].call.intent.request.owner, log[i].call.intent.request) !in StoreAfter(c, log[..i]).assignments
  }

  /** A fresh grant: at its instant, and not only in the listing, the agent is
      enabled, ready on the request's clock, below capacity and within every ceiling. */
  lemma FreshGrantIsEligible(c: Checks, actions: seq<Action>, i: nat)
    requires var log := Run(c, INITIAL, actions).log; i < |log| && Fresh(c, log, i)
    ensures var log := Run(c, INITIAL, actions).log;
      var r, a, now := log[i].call.intent.request, log[i].reply.assignment, log[i].call.now;
      var s, t := StoreAfter(c, log[..i]), StoreAfter(c, log[..i + 1]);
      var k := Key(r.owner, a.agentId);
      && k in s.agents && Candidate(s.agents[k], r, now) && a == NewAssignment(r, s.agents[k], now)
      && s.agents[k].availability.active < s.agents[k].availability.max && s.agents[k].state == LifecycleState.Enabled
      && k in t.agents && t.agents[k] == Reserved(s.agents[k], now)
  {
    hide Exec, StoreAfter, Run, Candidate, NewAssignment, WellFormed;
    InterleavedRunsAreAtomic(c, actions);
    var log := Run(c, INITIAL, actions).log;
    LogGrows(c, log[..i], log[i]);
    assert log[..i] + [log[i]] == log[..i + 1];
    StoreIsWellFormed(c, log[..i]);
    GrantIsReservation(c, StoreAfter(c, log[..i]), log[i].call);
  }

  /** Spelled out: what is granted is what was asked for, within the ceilings of the
      agent as it is at that instant and of the policy, with a score that persists. */
  lemma FreshGrantIsWithinCeilings(c: Checks, actions: seq<Action>, i: nat)
    requires var log := Run(c, INITIAL, actions).log; i < |log| && Fresh(c, log, i)
    ensures var log := Run(c, INITIAL, actions).log;
      var r, a := log[i].call.intent.request, log[i].reply.assignment;
      var s := StoreAfter(c, log[..i]);
      && Key(r.owner, a.agentId) in s.agents
      && var agent := s.agents[Key(r.owner, a.agentId)];
         && a.id == r && a.taskId == r.taskId && a.agentRevision == agent.revision
         && 0 <= a.authority == r.authority <= agent.profile.authorityCeiling && a.authority <= r.policyMaxAuthority
         && 0 <= a.autonomy == r.autonomy <= agent.profile.autonomyCeiling && a.autonomy <= r.policyMaxAutonomy
         && 0.4555 <= a.score <= 1.0
  {
    assert Run(c, INITIAL, actions).log[i].call.intent.Assign? && Run(c, INITIAL, actions).log[i].reply.Granted?;
    hide *;
    FreshGrantIsEligible(c, actions, i);
    InterleavedRunsAreAtomic(c, actions);
    var log := Run(c, INITIAL, actions).log;
    StoreIsWellFormed(c, log[..i]);
    ReplyAt(c, log, i);
    GrantedMeansStored(c, StoreAfter(c, log[..i]), log[i].call);
    var r := log[i].call.intent.request;
    GrantFits(c, StoreAfter(c, log[..i]), Key(r.owner, log[i].reply.assignment.agentId), r, log[i].call.now);
  }

  lemma ReplyAt(c: Checks, log: seq<Logged>, i: nat)
    requires Atomic(c, log) && i < |log|
    ensures log[i].reply == Exec(c, StoreAfter(c, log[..i]), log[i].call).1
  {
    hide Exec, StoreAfter;
  }

  lemma GrantFits(c: Checks, s: Store, k: Key, r: Request, now: int)
    requires WellFormed(c, s) && ValidateRequest(c, r) && k in s.agents && Candidate(s.agents[k], r, now)
    ensures var agent := s.agents[k];
      && agent.availability.max != 0
      && var a := NewAssignment(r, agent, now);
         && a.id == r && a.taskId == r.taskId && a.agentRevision == agent.revision
         && 0 <= a.authority == r.authority <= agent.profile.authorityCeiling && a.authority <= r.policyMaxAuthority
         && 0 <= a.autonomy == r.autonomy <= agent.profile.autonomyCeiling && a.autonomy <= r.policyMaxAutonomy
         && 0.4555 <= a.score <= 1.0
  {
    hide SoundAgent, Components, Score, RoundScore, ValidIdentity, ValidIdentifier, ValidAllowlist, CapabilitiesMatch,
      CompatibilityMatches, ContainsAll, ContainsAllFolders;
    EligibleScoreBounds(c, s.agents[k], r, now);
  }

  lemma GrantIsReservation(c: Checks, s: Store, call: Call)
    requires WellFormed(c, s)
    requires call.intent.Assign? && Exec(c, s, call).1.Granted?
    requires AssignmentKey(call.intent.request.owner, call.intent.request) !in s.assignments
    ensures var r, a := call.intent.request, Exec(c, s, call).1.assignment;
      var k := Key(r.owner, a.agentId);
      && k in s.agents && Candidate(s.agents[k], r, call.now) && a == NewAssignment(r, s.agents[k], call.now)
      && s.agents[k].availability.active < s.agents[k].availability.max && s.agents[k].state == LifecycleState.Enabled
      && k in Exec(c, s, call).0.agents && Exec(c, s, call).0.agents[k] == Reserved(s.agents[k], call.now)
  {
    hide SoundAgent, ValidateRequest, Candidate, Components, Score, NobodyEligible;
    var reserve := WholeIsReserve(c, s, call);
    if reserve.choice.Some? {
      var k := Key(call.intent.request.owner, reserve.choice.value.id);
      if k in s.agents && Candidate(s.agents[k], call.intent.request, call.now) {
        CandidateHasRoom(s.agents[k], call.intent.request, call.now);
      }
    }
  }

  lemma StoreOfLog(c: Checks, log: seq<Logged>)
    ensures StoreAfter(c, log) == RunCalls(c, CallsOf(log)).store
  {}

  /** In every interleaving, each agent's stored versions are revisions 1 to the
      current one without a gap, each made by one command from the one before. */
  lemma InterleavedHistoriesAreGapFree(c: Checks, actions: seq<Action>, k: Key)
    requires k in Run(c, INITIAL, actions).store.agents
    ensures var s := Run(c, INITIAL, actions);
      var history := RunCalls(c, CallsOf(s.log)).history;
      && k in history && GoodHistory(c, k, history[k])
      && |history[k]| == s.store.agents[k].revision && history[k][|history[k]| - 1].agent == s.store.agents[k]
  {
    hide *;
    InterleavedRunsAreAtomic(c, actions);
    StoreOfLog(c, Run(c, INITIAL, actions).log);
    HistoriesAreGapFree(c, CallsOf(Run(c, INITIAL, actions).log), k);
  }

  /** The slot guard holds in every interleaving: an assignment without an outcome
      keeps its agent's slot, and the maximum is never exceeded. */
  lemma InterleavedRunsKeepSlots(c: Checks, actions: seq<Action>, ak: AssignmentKey)
    requires var s := Run(c, INITIAL, actions).store; ak in s.assignments && ak !in s.outcomes
    ensures var s := Run(c, INITIAL, actions).store;
      var k := AgentKey(s.assignments[ak]);
      k in s.agents && 0 < s.agents[k].availability.active <= s.agents[k].availability.max
  {
    hide *;
    InterleavedRunsAreAtomic(c, actions);
    var s := Run(c, INITIAL, actions);
    StoreOfLog(c, s.log);
    OpenAssignmentHasSlot(c, CallsOf(s.log), ak);
    SlotConservation(c, CallsOf(s.log), AgentKey(s.store.assignments[ak]));
  }
}
