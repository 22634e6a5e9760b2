/** The registry's commands: read, compute a replacement, commit. Each is written
    once as an effect on a store and once as a method over the repository. */
module RegistryService {
  import opened Wrappers
  import opened RegistryTypes
  import opened RegistryStore
  import opened RegistryRules
  import opened Sorting
  import opened Text

  // What the owner asks for, and one execution of it

  datatype Intent =
    | Register(input: Agent)
    | Update(owner: string, replacement: Agent, expected: nat)
    | Transit(owner: string, id: string, expected: nat, to: LifecycleState, reason: string)
    | Assign(request: Request)
    | Record(owner: string, assignment: Request, expected: nat, outcome: Outcome)

  /** The agent an assignment picked from its listing, as it was listed. */
  datatype Choice = Choice(id: string, revision: nat)

  /** An intent with the clock readings of its execution; a transition reads the
      clock twice. Without a choice this is the whole command; a choice marks the
      last part of an assignment, which reserves the agent that it listed earlier. */
  datatype Call = Call(intent: Intent, checkedAt: int, now: int, choice: Option<Choice>)

  datatype Reply = Failed(error: Error) | Saved(agent: Agent) | Granted(assignment: Assignment)

  function AgentReply(r: Result<Agent, Error>): Reply {
    match r case Ok(a) => Saved(a) case Err(e) => Failed(e)
  }

  // Computing replacements

  function Registration(input: Agent, now: int): Agent {
    input.(contractVersion := CONTRACT_VERSION, owner := Trim(input.owner), id := Trim(input.id),
           profile := NormalizeProfile(input.profile.(name := Trim(input.profile.name))),
           state := Registered, revision := 1, createdAt := now, updatedAt := now)
  }

  /** Ownership, lifecycle, evidence and consumed capacity stay as they are. */
  function Replacement(current: Agent, replacement: Agent, now: int): Agent {
    replacement.(contractVersion := CONTRACT_VERSION, owner := current.owner, id := current.id, state := current.state,
                 reliability := current.reliability,
                 availability := replacement.availability.(active := current.availability.active),
                 revision := current.revision + 1, createdAt := current.createdAt, updatedAt := now,
                 profile := NormalizeProfile(replacement.profile))
  }

  function Moved(current: Agent, to: LifecycleState, now: int): Agent {
    current.(state := to, revision := current.revision + 1, updatedAt := now)
  }

  function MoveEvent(current: Agent, to: LifecycleState, reason: string, now: int): Transition {
    Transition(current.state, to, Trim(reason), now, current.revision + 1)
  }

  function Milliseconds(latency: int): int {
    latency / 1_000_000
  }

  function WithOutcome(r: Reliability, o: Outcome): Reliability {
    var before := r.successes + r.failures;
    var ms := Milliseconds(o.latency) as real;
    Reliability(
      r.successes + (if o.success then 1 else 0), r.failures + (if o.success then 0 else 1),
      if o.success then 0 else r.consecutiveFailures + 1,
      if before == 0 then ms else (r.meanLatencyMs * before as real + ms) / (before + 1) as real,
      o.recordedAt)
  }

  function Recorded(o: Outcome, now: int): Outcome {
    if o.recordedAt == UNSET_TIME then o.(recordedAt := now) else o
  }

  function Finished(current: Agent, o: Outcome, now: int): Agent {
    current.(availability := current.availability.(active := current.availability.active - 1),
             reliability := WithOutcome(current.reliability, o), revision := current.revision + 1, updatedAt := now)
  }

  // Reading, then preparing what to commit

  datatype Commit =
    | Swap(agent: Agent)
    | Move(agent: Agent, event: Transition)
    | Close(agent: Agent, result: AssignmentOutcome)

  function ServiceGet(c: Checks, s: Store, owner: string, id: string): Result<Agent, Error> {
    if !ValidIdentity(c, owner) || !ValidIdentifier(c, id) then Err(InvalidInput)
    else GetIn(s, Trim(owner), Trim(id))
  }

  /** Looked up under the owner as given: assignment IDs are digests, so always well formed. */
  function ServiceGetAssignment(c: Checks, s: Store, owner: string, id: Request): Result<Assignment, Error> {
    if !ValidIdentity(c, owner) then Err(InvalidInput) else AssignmentIn(s, owner, id)
  }

  function PrepareUpdate(c: Checks, current: Agent, replacement: Agent, expected: nat, now: int): Result<Commit, Error> {
    var next := Replacement(current, replacement, now);
    if current.revision != expected then Err(RevisionConflict)
    else if !ValidateAgent(c, next, now) then Err(InvalidInput)
    else Ok(Swap(next))
  }

  function PrepareTransit(c: Checks, current: Agent, expected: nat, to: LifecycleState, reason: string, checkedAt: int, now: int)
    : Result<Commit, Error>
  {
    if current.revision != expected then Err(RevisionConflict)
    else if !ValidText(c, reason, true) then Err(InvalidInput)
    else if !TransitionAllowed(current.state, to) then Err(InvalidTransition)
    else if to == Enabled && !AgentReady(current, checkedAt, false) then Err(InvalidTransition)
    else Ok(Move(Moved(current, to, now), MoveEvent(current, to, reason, now)))
  }

  function PrepareRecord(c: Checks, current: Agent, a: Assignment, expected: nat, outcome: Outcome, now: int): Result<Commit, Error> {
    var o := Recorded(outcome, now);
    var next := Finished(current, o, now);
    if current.revision != expected then Err(RevisionConflict)
    else if o.latency < 0 then Err(InvalidInput)
    else if o.recordedAt > now + MINUTE then Err(InvalidInput)
    else if current.availability.active <= 0 then Err(RevisionConflict)
    else if !ValidateAgent(c, next, now) then Err(InvalidInput)
    else Ok(Close(next, AssignmentOutcome(a.id, a.owner, a.agentId, o.success, o.latency, o.recordedAt)))
  }

  function Expected(i: Intent): nat
    requires !i.Register? && !i.Assign?
  {
    i.expected
  }

  /** What Update, Transition and RecordAssignmentOutcome read, and what they make of it. */
  function ReadIn(c: Checks, s: Store, i: Intent): Result<Agent, Error>
    requires !i.Register? && !i.Assign?
  {
    match i
    case Update(owner, replacement, _) => ServiceGet(c, s, owner, replacement.id)
    case Transit(owner, id, _, _, _) => ServiceGet(c, s, owner, id)
    case Record(owner, assignment, _, _) =>
      match ServiceGetAssignment(c, s, owner, assignment)
      case Err(e) => Err(e)
      case Ok(a) => ServiceGet(c, s, owner, a.agentId)
  }

  function PrepareOn(c: Checks, s: Store, current: Agent, call: Call): Result<Commit, Error>
    requires !call.intent.Register? && !call.intent.Assign?
  {
    match call.intent
    case Update(_, replacement, expected) => PrepareUpdate(c, current, replacement, expected, call.now)
    case Transit(_, _, expected, to, reason) => PrepareTransit(c, current, expected, to, reason, call.checkedAt, call.now)
    case Record(owner, assignment, expected, outcome) =>
      match ServiceGetAssignment(c, s, owner, assignment)
      case Err(e) => Err(e)
      case Ok(a) => PrepareRecord(c, current, a, expected, outcome, call.now)
  }

  function CommitIn(s: Store, commit: Commit, expected: nat): (Store, Result<Agent, Error>) {
    match commit
    case Swap(agent) => SwapIn(s, agent, expected)
    case Move(agent, event) => TransitionIn(s, agent, expected, event)
    case Close(agent, result) => OutcomeIn(s, result, agent, expected)
  }

  // Selecting

  predicate Candidate(a: Agent, r: Request, now: int) {
    Eligible(a, r, now) && a.availability.max != 0
  }

  datatype Ranked = Ranked(agent: Agent, score: real)

  const BY_RANK: (Ranked, Ranked) -> bool :=
    (a: Ranked, b: Ranked) => if a.score == b.score then LexLe(a.agent.id, b.agent.id) else a.score > b.score

  function Ranking(listed: seq<Agent>, r: Request, now: int): seq<Ranked> {
    if listed == [] then []
    else
      var a := listed[|listed| - 1];
      Ranking(listed[..|listed| - 1], r, now) + if Candidate(a, r, now) then [Ranked(a, Score(a, r))] else []
  }

  method Select(listed: seq<Agent>, r: Request, now: int) returns (chosen: Option<Agent>)
    ensures chosen == None <==> forall a :: a in listed ==> !Candidate(a, r, now)
    ensures chosen.Some? ==> chosen.value in listed && IsBest(listed, r, now, chosen.value)
  {
    hide Candidate, Score;
    var candidates: seq<Ranked> := [];
    for i := 0 to |listed|
      invariant candidates == Ranking(listed[..i], r, now)
    {
      assert listed[..i + 1][..i] == listed[..i];
      if Candidate(listed[i], r, now) {
        CandidateHasSlots(listed[i], r, now);
        candidates := candidates + [Ranked(listed[i], Score(listed[i], r))];
      }
    }
    assert listed[..|listed|] == listed;
    RankingMembers(listed, r, now);
    forall a | a in listed && Candidate(a, r, now) ensures candidates != [] {
      CandidateHasSlots(a, r, now);
      assert Ranked(a, Score(a, r)) in candidates;
    }
    if candidates == [] { return None; }
    var sorted := Sort(candidates, BY_RANK);
    SortPermutes(candidates, BY_RANK);
    RankIsOrder();
    SortIsSorted(candidates, BY_RANK);
    assert sorted[0] in candidates;
    FirstIsBest(listed, r, now, sorted);
    return Some(sorted[0].agent);
  }

  lemma CandidateHasSlots(a: Agent, r: Request, now: int)
    requires Candidate(a, r, now)
    ensures a.availability.max != 0
  {}

  /** No other candidate scores higher, and those that tie have a later ID. */
  ghost predicate IsBest(listed: seq<Agent>, r: Request, now: int, a: Agent) {
    Candidate(a, r, now) && forall b :: b in listed && Candidate(b, r, now) ==> Beats(a, b, r)
  }

  predicate Beats(a: Agent, b: Agent, r: Request) {
    a.availability.max != 0 && b.availability.max != 0
    && (Score(a, r) > Score(b, r) || (Score(a, r) == Score(b, r) && LexLe(a.id, b.id)))
  }

  lemma RankIsOrder()
    ensures TotalPreorder(BY_RANK)
  {
    forall a: Ranked, b: Ranked ensures BY_RANK(a, b) || BY_RANK(b, a) { LexTotal(a.agent.id, b.agent.id); }
    forall a: Ranked, b: Ranked, x: Ranked | BY_RANK(a, b) && BY_RANK(b, x) ensures BY_RANK(a, x) {
      if a.score == b.score == x.score { LexTransitive(a.agent.id, b.agent.id, x.agent.id); }
    }
  }

  lemma {:induction false} RankingMembers(listed: seq<Agent>, r: Request, now: int)
    ensures forall x :: x in Ranking(listed, r, now) <==>
      x.agent in listed && Candidate(x.agent, r, now) && x.score == Score(x.agent, r)
  {
    hide Score, Eligible;
    if listed != [] {
      RankingMembers(listed[..|listed| - 1], r, now);
      assert listed == listed[..|listed| - 1] + [listed[|listed| - 1]];
    }
  }

  lemma FirstIsBest(listed: seq<Agent>, r: Request, now: int, sorted: seq<Ranked>)
    requires sorted != [] && Sorted(sorted, BY_RANK)
    requires forall x :: x in sorted <==> x.agent in listed && Candidate(x.agent, r, now) && x.score == Score(x.agent, r)
    ensures IsBest(listed, r, now, sorted[0].agent)
  {
    hide Score, Eligible;
    assert sorted[0] in sorted;
    forall b | b in listed && Candidate(b, r, now) ensures Beats(sorted[0].agent, b, r) {
      assert Ranked(b, Score(b, r)) in sorted;
      var i :| 0 <= i < |sorted| && sorted[i] == Ranked(b, Score(b, r));
      if i > 0 { assert BY_RANK(sorted[0], sorted[i]); }
      else { LexTotal(b.id, b.id); }
    }
  }

  /** The choice does not depend on the order of the listing: agents of one owner
      have different IDs, and then at most one is best. */
  lemma BestIsUnique(listed: seq<Agent>, other: seq<Agent>, r: Request, now: int, a: Agent, b: Agent)
    requires forall x :: x in listed <==> x in other
    requires forall x, y :: x in listed && y in listed && x.id == y.id ==> x == y
    requires a in listed && IsBest(listed, r, now, a) && b in other && IsBest(other, r, now, b)
    ensures a == b
  {
    hide Score, Eligible;
    assert Beats(a, b, r) && Beats(b, a, r);
    LexAntisymmetric(a.id, b.id);
  }

  function NewAssignment(r: Request, a: Agent, now: int): Assignment
    requires a.availability.max != 0
  {
    Assignment(r, r.owner, r.taskId, a.id, a.revision, r.authority, r.autonomy, RoundScore(Score(a, r)), Components(a, r), now)
  }

  // One execution against a store that nobody else changes meanwhile

  ghost predicate NobodyEligible(s: Store, r: Request, now: int) {
    forall k :: k in s.agents && k.owner == r.owner ==> !Candidate(s.agents[k], r, now)
  }

  ghost function RegisterIn(c: Checks, s: Store, input: Agent, now: int): (Store, Reply) {
    var agent := Registration(input, now);
    if !ValidateAgent(c, agent, now) then (s, Failed(InvalidInput))
    else var (t, r) := CreateIn(s, agent); (t, AgentReply(r))
  }

  ghost predicate BestChoice(s: Store, r: Request, now: int, pick: Choice) {
    var k := Key(r.owner, pick.id);
    && k in s.agents && s.agents[k].revision == pick.revision && Candidate(s.agents[k], r, now)
    && forall o :: o in s.agents && o.owner == r.owner && Candidate(s.agents[o], r, now) ==> Beats(s.agents[k], s.agents[o], r)
  }

  /** The agent that an assignment would pick in this store. */
  ghost function BestPick(s: Store, r: Request, now: int): (pick: Option<Choice>)
    ensures pick.Some? ==> BestChoice(s, r, now, pick.value)
    ensures pick == None ==> forall p :: !BestChoice(s, r, now, p)
  {
    if exists p :: BestChoice(s, r, now, p) then
      var p :| BestChoice(s, r, now, p);
      Some(p)
    else None
  }

  /** The whole assignment: an existing one is the answer; otherwise the best
      eligible agent is picked and reserved. */
  ghost function AssignWhole(c: Checks, s: Store, r: Request, now: int): (Store, Reply) {
    if !ValidateRequest(c, r) then (s, Failed(InvalidInput))
    else if AssignmentKey(r.owner, r) in s.assignments then (s, Granted(s.assignments[AssignmentKey(r.owner, r)]))
    else match BestPick(s, r, now)
      case None => (s, Failed(NoEligibleAgent))
      case Some(pick) =>
        var a := NewAssignment(r, s.agents[Key(r.owner, pick.id)], now);
        (AssignIn(s, a).0, Granted(a))
  }

  /** Its last part alone: an existing assignment of the request is the answer;
      otherwise the listed agent is reserved if it is still the listed revision. */
  ghost function ReserveListed(c: Checks, s: Store, r: Request, now: int, pick: Choice): (Store, Reply) {
    if !ValidateRequest(c, r) then (s, Failed(InvalidInput))
    else if AssignmentKey(r.owner, r) in s.assignments then (s, Granted(s.assignments[AssignmentKey(r.owner, r)]))
    else
      var k := Key(r.owner, pick.id);
      if k !in s.agents || s.agents[k].revision != pick.revision || !Candidate(s.agents[k], r, now) then (s, Failed(RevisionConflict))
      else
        var a := NewAssignment(r, s.agents[k], now);
        (AssignIn(s, a).0, Granted(a))
  }

  ghost function Exec(c: Checks, s: Store, call: Call): (Store, Reply) {
    match call.intent
    case Register(input) => RegisterIn(c, s, input, call.now)
    case Assign(r) =>
      (match call.choice
       case None => AssignWhole(c, s, r, call.now)
       case Some(pick) => ReserveListed(c, s, r, call.now, pick))
    case _ =>
      match ReadIn(c, s, call.intent)
      case Err(e) => (s, Failed(e))
      case Ok(current) =>
        match PrepareOn(c, s, current, call)
        case Err(e) => (s, Failed(e))
        case Ok(commit) =>
          var (t, r) := CommitIn(s, commit, Expected(call.intent));
          (t, AgentReply(r))
  }

  // The commands as the service runs them, with nobody in between

  class Service {
    const repository: MemoryRepository

    constructor (repository: MemoryRepository)
      ensures this.repository == repository
    {
      this.repository := repository;
    }

    method Register(c: Checks, input: Agent, now: int) returns (reply: Reply)
      modifies repository
      ensures (repository.State(), reply) == Exec(c, old(repository.State()), Call(Intent.Register(input), now, now, None))
    {
      hide ValidateAgent, NormalizeProfile, Trim;
      var agent := input.(contractVersion := CONTRACT_VERSION, owner := Trim(input.owner), id := Trim(input.id));
      agent := agent.(profile := agent.profile.(name := Trim(agent.profile.name)));
      agent := agent.(state := Registered, revision := 1, createdAt := now, updatedAt := now);
      agent := agent.(profile := NormalizeProfile(agent.profile));
      if !ValidateAgent(c, agent, now) { return Failed(InvalidInput); }
      var r := repository.Create(agent);
      return AgentReply(r);
    }

    method Update(c: Checks, owner: string, replacement: Agent, expected: nat, now: int) returns (reply: Reply)
      modifies repository
      ensures (repository.State(), reply) ==
        Exec(c, old(repository.State()), Call(Intent.Update(owner, replacement, expected), now, now, None))
    {
      hide ValidateAgent, NormalizeProfile, Trim, ValidIdentity, ValidIdentifier;
      if !ValidIdentity(c, owner) || !ValidIdentifier(c, replacement.id) { return Failed(InvalidInput); }
      var found := repository.Get(Trim(owner), Trim(replacement.id));
      if found.Err? { return Failed(found.error); }
      var current := found.value;
      if current.revision != expected { return Failed(RevisionConflict); }
      var next := replacement.(contractVersion := CONTRACT_VERSION, owner := current.owner, id := current.id);
      next := next.(state := current.state, reliability := current.reliability);
      next := next.(availability := next.availability.(active := current.availability.active));
      next := next.(revision := current.revision + 1, createdAt := current.createdAt, updatedAt := now);
      next := next.(profile := NormalizeProfile(next.profile));
      if !ValidateAgent(c, next, now) { return Failed(InvalidInput); }
      var r := repository.CompareAndSwap(next, expected);
      return AgentReply(r);
    }

    method Transition(c: Checks, owner: string, id: string, expected: nat, to: LifecycleState, reason: string,
                      checkedAt: int, now: int) returns (reply: Reply)
      modifies repository
      ensures (repository.State(), reply) ==
        Exec(c, old(repository.State()), Call(Intent.Transit(owner, id, expected, to, reason), checkedAt, now, None))
    {
      hide Trim, ValidIdentity, ValidIdentifier, ValidText, AgentReady, TransitionAllowed;
      if !ValidIdentity(c, owner) || !ValidIdentifier(c, id) { return Failed(InvalidInput); }
      var found := repository.Get(Trim(owner), Trim(id));
      if found.Err? { return Failed(found.error); }
      var current := found.value;
      if current.revision != expected { return Failed(RevisionConflict); }
      if !ValidText(c, reason, true) { return Failed(InvalidInput); }
      if !TransitionAllowed(current.state, to) { return Failed(InvalidTransition); }
      if to == Enabled && !AgentReady(current, checkedAt, false) { return Failed(InvalidTransition); }
      var updated := current.(state := to);
      updated := updated.(revision := updated.revision + 1);
      updated := updated.(updatedAt := now);
      var event := RegistryTypes.Transition(current.state, to, Trim(reason), now, updated.revision);
      var r := repository.RecordTransition(updated, expected, event);
      return AgentReply(r);
    }

    /** The evidence of one more outcome, with the running mean updated in place. */
    static method ApplyOutcome(current: Agent, o: Outcome, now: int) returns (updated: Agent)
      ensures updated == Finished(current, o, now)
    {
      updated := current.(availability := current.availability.(active := current.availability.active - 1));
      var evidence := updated.reliability;
      var totalBefore := evidence.successes + evidence.failures;
      var latencyMs := Milliseconds(o.latency) as real;
      if totalBefore == 0 {
        evidence := evidence.(meanLatencyMs := latencyMs);
      } else {
        evidence := evidence.(meanLatencyMs := (evidence.meanLatencyMs * totalBefore as real + latencyMs) / (totalBefore + 1) as real);
      }
      if o.success {
        evidence := evidence.(successes := evidence.successes + 1, consecutiveFailures := 0);
      } else {
        evidence := evidence.(failures := evidence.failures + 1, consecutiveFailures := evidence.consecutiveFailures + 1);
      }
      evidence := evidence.(lastOutcomeAt := o.recordedAt);
      assert evidence == WithOutcome(current.reliability, o);
      updated := updated.(reliability := evidence);
      updated := updated.(revision := updated.revision + 1);
      updated := updated.(updatedAt := now);
    }

    method RecordAssignmentOutcome(c: Checks, owner: string, assignmentId: Request, expected: nat, outcome: Outcome, now: int)
      returns (reply: Reply)
      modifies repository
      ensures (repository.State(), reply) ==
        Exec(c, old(repository.State()), Call(Intent.Record(owner, assignmentId, expected, outcome), now, now, None))
    {
      hide ValidateAgent, Trim, ValidIdentity, ValidIdentifier;
      if !ValidIdentity(c, owner) { return Failed(InvalidInput); }
      var lookup := repository.GetAssignment(owner, assignmentId);
      if lookup.Err? { return Failed(lookup.error); }
      var a := lookup.value;
      if !ValidIdentifier(c, a.agentId) { return Failed(InvalidInput); }
      var found := repository.Get(Trim(owner), Trim(a.agentId));
      if found.Err? { return Failed(found.error); }
      var current := found.value;
      if current.revision != expected { return Failed(RevisionConflict); }
      if outcome.latency < 0 { return Failed(InvalidInput); }
      var o := outcome;
      if o.recordedAt == UNSET_TIME { o := o.(recordedAt := now); }
      if o.recordedAt > now + MINUTE { return Failed(InvalidInput); }
      if current.availability.active <= 0 { return Failed(RevisionConflict); }
      var updated := ApplyOutcome(current, o, now);
      if !ValidateAgent(c, updated, now) { return Failed(InvalidInput); }
      var r := repository.RecordAssignmentOutcome(
        AssignmentOutcome(a.id, a.owner, a.agentId, o.success, o.latency, o.recordedAt), updated, expected);
      return AgentReply(r);
    }

    /** With nobody in between, the request goes to the best eligible agent of
        its owner, and only fails when there is none. */
    method Assign(c: Checks, r: Request, now: int) returns (reply: Reply)
      requires KeysMatch(repository.State())
      modifies repository
      ensures (repository.State(), reply) == Exec(c, old(repository.State()), Call(Intent.Assign(r), now, now, None))
    {
      hide ValidateRequest, Score, Eligible, Components, Beats, BestChoice, BestPick;
      ghost var s := repository.State();
      if !ValidateRequest(c, r) { return Failed(InvalidInput); }
      var existing := repository.GetAssignment(r.owner, r);
      if existing.Ok? { return Granted(existing.value); }
      var listed := repository.List(r.owner);
      var chosen := Select(listed, r, now);
      if chosen.None? {
        forall k | k in s.agents && k.owner == r.owner ensures !Candidate(s.agents[k], r, now) { assert s.agents[k] in listed; }
        BestPickIff(s, r, now);
        return Failed(NoEligibleAgent);
      }
      CandidateHasSlots(chosen.value, r, now);
      BestOfListing(s, listed, r, now, chosen.value);
      BestIsPicked(s, r, now, Choice(chosen.value.id, chosen.value.revision));
      var a := NewAssignment(r, chosen.value, now);
      var created := repository.CreateAssignment(a);
      CandidateHasRoom(chosen.value, r, now);
      return Granted(a);
    }
  }

  predicate KeysMatch(s: Store) {
    forall k :: k in s.agents ==> k == KeyOf(s.agents[k])
  }

  lemma CandidateHasRoom(a: Agent, r: Request, now: int)
    requires Candidate(a, r, now)
    ensures a.availability.active < a.availability.max && a.state == Enabled
  {
    hide CapabilitiesMatch, ContainsAll, ContainsAllFolders, CompatibilityMatches;
  }

  lemma BestOfListing(s: Store, listed: seq<Agent>, r: Request, now: int, a: Agent)
    requires KeysMatch(s)
    requires forall x :: x in listed <==> KeyOf(x) in s.agents && s.agents[KeyOf(x)] == x && x.owner == r.owner
    requires a in listed && IsBest(listed, r, now, a)
    ensures Key(r.owner, a.id) in s.agents && s.agents[Key(r.owner, a.id)] == a
    ensures BestChoice(s, r, now, Choice(a.id, a.revision))
  {
    hide Score, Eligible;
    assert Key(r.owner, a.id) == KeyOf(a);
    forall o | o in s.agents && o.owner == r.owner && Candidate(s.agents[o], r, now) ensures Beats(a, s.agents[o], r) {
      assert s.agents[o] in listed;
    }
  }

  // The pick is the best eligible agent, and there is one unless nobody is eligible

  lemma BeatsTotal(a: Agent, b: Agent, r: Request)
    requires a.availability.max != 0 && b.availability.max != 0
    ensures Beats(a, b, r) || Beats(b, a, r)
  {
    hide Score;
    LexTotal(a.id, b.id);
  }

  lemma BeatsTransitive(a: Agent, b: Agent, d: Agent, r: Request)
    requires Beats(a, b, r) && Beats(b, d, r)
    ensures Beats(a, d, r)
  {
    hide Score;
    if Score(a, r) == Score(b, r) == Score(d, r) { LexTransitive(a.id, b.id, d.id); }
  }

  lemma {:induction false} BestOfKeys(s: Store, ks: set<Key>, r: Request, now: int) returns (best: Key)
    requires ks != {} && forall k :: k in ks ==> k in s.agents && Candidate(s.agents[k], r, now)
    ensures best in ks && forall k :: k in ks ==> Beats(s.agents[best], s.agents[k], r)
  {
    hide Eligible, Beats;
    var first :| first in ks;
    best := first;
    BeatsTotal(s.agents[first], s.agents[first], r);
    var rest := ks - {first};
    if rest != {} {
      var other := BestOfKeys(s, rest, r, now);
      BeatsTotal(s.agents[first], s.agents[other], r);
      if !Beats(s.agents[first], s.agents[other], r) { best := other; }
      forall k | k in rest ensures Beats(s.agents[best], s.agents[k], r) {
        if best == first { BeatsTransitive(s.agents[first], s.agents[other], s.agents[k], r); }
      }
    }
    assert forall k :: k in ks ==> k == first || k in rest;
  }

  /** An assignment finds nobody exactly when nobody is eligible. */
  lemma BestPickIff(s: Store, r: Request, now: int)
    ensures BestPick(s, r, now) == None <==> NobodyEligible(s, r, now)
  {
    hide Candidate, Beats;
    var ks := set k | k in s.agents && k.owner == r.owner && Candidate(s.agents[k], r, now);
    if ks == {} {
      assert forall k :: k in s.agents && k.owner == r.owner && Candidate(s.agents[k], r, now) ==> k in ks;
    } else {
      var best := BestOfKeys(s, ks, r, now);
      assert Key(r.owner, best.id) == best;
      assert BestChoice(s, r, now, Choice(best.id, s.agents[best].revision));
    }
  }

  /** At most one agent is best, so it is the pick. */
  lemma BestIsPicked(s: Store, r: Request, now: int, pick: Choice)
    requires KeysMatch(s) && BestChoice(s, r, now, pick)
    ensures BestPick(s, r, now) == Some(pick)
  {
    hide Candidate, Score;
    var other := BestPick(s, r, now).value;
    assert Beats(s.agents[Key(r.owner, pick.id)], s.agents[Key(r.owner, other.id)], r);
    assert Beats(s.agents[Key(r.owner, other.id)], s.agents[Key(r.owner, pick.id)], r);
    LexAntisymmetric(pick.id, other.id);
  }

  /** The whole assignment is its last part for the pick of this very store. */
  lemma WholeReservesPick(c: Checks, s: Store, r: Request, now: int, pick: Choice)
    requires BestPick(s, r, now) == Some(pick)
    ensures AssignWhole(c, s, r, now) == ReserveListed(c, s, r, now, pick)
  {
    hide ValidateRequest, Candidate, Beats, BestPick;
  }

  /** In no respect the worse choice, and clearly better in one or first by ID. */
  predicate Outclasses(a: Agent, b: Agent, r: Request) {
    && a.availability.max > 0 && b.availability.max > 0 && NoWorse(a, b)
    && (ClearlyBetter(a, b, r) || (a.id != b.id && LexLe(a.id, b.id)))
  }

  /** No eligible agent of the owner outclasses the best choice. */
  lemma BestIsNotOutclassed(s: Store, r: Request, now: int, pick: Choice, o: Key)
    requires KeysMatch(s) && BestChoice(s, r, now, pick)
    requires o in s.agents && o.owner == r.owner && Candidate(s.agents[o], r, now)
    ensures !Outclasses(s.agents[o], s.agents[Key(r.owner, pick.id)], r)
  {
    hide Candidate, Score, NoWorse, ClearlyBetter;
    var a, b := s.agents[o], s.agents[Key(r.owner, pick.id)];
    assert Beats(b, a, r);
    if Outclasses(a, b, r) {
      ScoreFollowsMerit(a, b, r);
      LexAntisymmetric(a.id, b.id);
    }
  }

  /** So a whole assignment never grants an agent that another eligible one of the
      owner outclasses, as one does that is alike except in having a hundredth of
      the slots or more left over. */
  lemma GrantIsNotOutclassed(c: Checks, s: Store, r: Request, now: int, o: Key)
    requires KeysMatch(s) && AssignmentKey(r.owner, r) !in s.assignments && AssignWhole(c, s, r, now).1.Granted?
    requires o in s.agents && o.owner == r.owner && Candidate(s.agents[o], r, now)
    ensures var k := Key(r.owner, AssignWhole(c, s, r, now).1.assignment.agentId);
      k in s.agents && !Outclasses(s.agents[o], s.agents[k], r)
  {
    hide ValidateRequest, Candidate, Components, Score, BestPick, BestChoice, Outclasses;
    var pick := BestPick(s, r, now).value;
    PickIsStored(s, r, now, pick);
    BestIsNotOutclassed(s, r, now, pick, o);
  }

  lemma PickIsStored(s: Store, r: Request, now: int, pick: Choice)
    requires KeysMatch(s) && BestChoice(s, r, now, pick)
    ensures Key(r.owner, pick.id) in s.agents && s.agents[Key(r.owner, pick.id)].id == pick.id
  {
    hide Candidate, Beats;
  }
}
