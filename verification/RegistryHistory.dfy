/** Runs of commands, one after the other, with every version of every agent
    remembered. RegistryClients shows that interleaved clients add nothing to these. */
module RegistryHistory {
  import opened Wrappers
  import opened RegistryTypes
  import opened RegistryStore
  import opened RegistryRules
  import opened RegistryService
  import opened Text

  datatype Entry = Entry(agent: Agent, call: Call)

  datatype World = World(store: Store, history: map<Key, seq<Entry>>)

  const NOTHING := World(EMPTY, map[])

  function Past(w: World, k: Key): seq<Entry> {
    if k in w.history then w.history[k] else []
  }

  /** The agent whose record an execution replaced. */
  function Written(s: Store, reply: Reply): Option<Key> {
    match reply
    case Failed(_) => None
    case Saved(a) => Some(KeyOf(a))
    case Granted(a) => if AssignmentKey(a.owner, a.id) in s.assignments then None else Some(AgentKey(a))
  }

  ghost function Apply(c: Checks, w: World, call: Call): World {
    var (t, reply) := Exec(c, w.store, call);
    match Written(w.store, reply)
    case None => World(t, w.history)
    case Some(k) =>
      if k in t.agents then World(t, w.history[k := Past(w, k) + [Entry(t.agents[k], call)]]) else World(t, w.history)
  }

  ghost function RunCalls(c: Checks, calls: seq<Call>): World {
    if calls == [] then NOTHING else Apply(c, RunCalls(c, calls[..|calls| - 1]), calls[|calls| - 1])
  }

  // What one execution does

  datatype Effect =
    | Unchanged
    | Adds(agent: Agent)
    | Replaces(agent: Agent)
    | Moves(agent: Agent, event: Transition)
    | Closes(agent: Agent, key: AssignmentKey, result: AssignmentOutcome)
    | Reserves(agent: Agent, assignment: Assignment)

  function After(s: Store, e: Effect): Store {
    if e.Unchanged? then s else
    var k := KeyOf(e.agent);
    var t := s.(agents := s.agents[k := e.agent]);
    match e
    case Moves(_, event) => t.(transitions := s.transitions[k := Ledger(s, k) + [event]])
    case Closes(_, key, result) => t.(outcomes := s.outcomes[key := result])
    case Reserves(_, a) => t.(assignments := s.assignments[AssignmentKey(a.owner, a.id) := a])
    case _ => t
  }

  /** How a version comes from the one before it. */
  ghost predicate Follows(before: Agent, v: Entry) {
    var now := v.call.now;
    match v.call.intent
    case Register(_) => false
    case Update(_, replacement, _) => v.agent == Replacement(before, replacement, now)
    case Transit(_, _, _, to, _) =>
      v.agent == Moved(before, to, now) && TransitionAllowed(before.state, to)
      && (to == Enabled ==> AgentReady(before, v.call.checkedAt, false))
    case Record(_, _, _, outcome) =>
      v.agent == Finished(before, Recorded(outcome, now), now) && outcome.latency >= 0 && before.availability.active > 0
    case Assign(r) => v.agent == Reserved(before, now) && Candidate(before, r, now)
  }

  /** What the effect may be, given the call. */
  ghost predicate Legal(c: Checks, s: Store, call: Call, e: Effect) {
    if e.Unchanged? then true else
    var k := KeyOf(e.agent);
    && SoundAgent(c, e.agent)
    && (e.Adds? <==> k !in s.agents)
    && (e.Adds? ==> call.intent.Register? && e.agent == Registration(call.intent.input, call.now))
    && (!e.Adds? ==> k == KeyOf(s.agents[k]) && Follows(s.agents[k], Entry(e.agent, call)))
    && (e.Replaces? ==> call.intent.Update?)
    && (e.Moves? ==> call.intent.Transit? && e.event == MoveEvent(s.agents[k], call.intent.to, call.intent.reason, call.now))
    && (e.Closes? ==> call.intent.Record? && e.key in s.assignments && e.key !in s.outcomes && AgentKey(s.assignments[e.key]) == k)
    && (e.Reserves? ==>
          && call.intent.Assign? && AgentKey(e.assignment) == k
          && AssignmentKey(e.assignment.owner, e.assignment.id) !in s.assignments
          && s.agents[k].availability.max != 0 && e.assignment == NewAssignment(call.intent.request, s.agents[k], call.now))
  }

  ghost predicate WellFormed(c: Checks, s: Store) {
    && (forall k :: k in s.agents ==> k == KeyOf(s.agents[k]) && SoundAgent(c, s.agents[k]))
    && (forall ak :: ak in s.assignments ==>
          ak == AssignmentKey(s.assignments[ak].owner, s.assignments[ak].id) && AgentKey(s.assignments[ak]) in s.agents)
    && s.outcomes.Keys <= s.assignments.Keys
    && s.transitions.Keys <= s.agents.Keys
  }

  lemma MovingKeepsSound(c: Checks, a: Agent, to: LifecycleState, now: int)
    requires SoundAgent(c, a)
    ensures SoundAgent(c, Moved(a, to, now))
    ensures a.availability.active < a.availability.max ==> SoundAgent(c, Reserved(a, now))
  {
    hide ValidProfile, ValidIdentity, ValidIdentifier, ValidText;
  }

  lemma ValidIsSound(c: Checks, a: Agent, now: int)
    requires ValidateAgent(c, a, now)
    ensures SoundAgent(c, a)
  {
    hide SoundAgent;
  }

  lemma RegisterEffect(c: Checks, s: Store, call: Call) returns (e: Effect)
    requires call.intent.Register?
    ensures Legal(c, s, call, e) && Exec(c, s, call) == (After(s, e), Exec(c, s, call).1)
    ensures match e case Unchanged => Exec(c, s, call).1.Failed? case _ => Exec(c, s, call).1 == Saved(e.agent)
  {
    hide ValidateAgent, SoundAgent, NormalizeProfile, Trim;
    var agent := Registration(call.intent.input, call.now);
    e := if ValidateAgent(c, agent, call.now) && KeyOf(agent) !in s.agents then Adds(agent) else Unchanged;
    if e.Adds? { ValidIsSound(c, agent, call.now); }
  }

  lemma ReserveEffect(c: Checks, s: Store, call: Call) returns (e: Effect)
    requires WellFormed(c, s) && call.intent.Assign? && call.choice.Some?
    ensures Legal(c, s, call, e) && Exec(c, s, call) == (After(s, e), Exec(c, s, call).1)
    ensures match e
      case Unchanged => Exec(c, s, call).1.Failed? || (Exec(c, s, call).1.Granted? && Written(s, Exec(c, s, call).1) == None)
      case Reserves(_, a) => Exec(c, s, call).1 == Granted(a)
      case _ => false
  {
    hide ValidateRequest, SoundAgent, Eligible, Score, Components;
    var r := call.intent.request;
    e := Unchanged;
    if ValidateRequest(c, r) && AssignmentKey(r.owner, r) !in s.assignments {
      var k := Key(r.owner, call.choice.value.id);
      if k in s.agents && s.agents[k].revision == call.choice.value.revision && Candidate(s.agents[k], r, call.now) {
        var agent := s.agents[k];
        CandidateHasRoom(agent, r, call.now);
        MovingKeepsSound(c, agent, Enabled, call.now);
        e := Reserves(Reserved(agent, call.now), NewAssignment(r, agent, call.now));
      }
    }
  }

  /** A whole assignment does nothing or what reserving its own pick does. */
  lemma WholeIsReserve(c: Checks, s: Store, call: Call) returns (reserve: Call)
    requires call.intent.Assign?
    ensures reserve.intent == call.intent && reserve.now == call.now && reserve.checkedAt == call.checkedAt
    ensures reserve.choice.Some? || (Exec(c, s, call) == (s, Failed(NoEligibleAgent)))
    ensures reserve.choice.Some? ==> Exec(c, s, reserve) == Exec(c, s, call)
  {
    hide ValidateRequest, BestPick;
    var r, now := call.intent.request, call.now;
    var pick := BestPick(s, r, now);
    if call.choice.Some? {
      reserve := call;
    } else if pick.Some? {
      WholeReservesPick(c, s, r, now, pick.value);
      reserve := call.(choice := pick);
    } else if !ValidateRequest(c, r) || AssignmentKey(r.owner, r) in s.assignments {
      reserve := call.(choice := Some(Choice("", 0)));
    } else {
      reserve := call;
    }
  }

  lemma AssignEffect(c: Checks, s: Store, call: Call) returns (e: Effect)
    requires WellFormed(c, s) && call.intent.Assign?
    ensures Legal(c, s, call, e) && Exec(c, s, call) == (After(s, e), Exec(c, s, call).1)
    ensures match e
      case Unchanged => Exec(c, s, call).1.Failed? || (Exec(c, s, call).1.Granted? && Written(s, Exec(c, s, call).1) == None)
      case Reserves(_, a) => Exec(c, s, call).1 == Granted(a)
      case _ => false
  {
    hide Exec, SoundAgent, Registration, Replacement, Moved, Finished, NewAssignment, MoveEvent;
    var reserve := WholeIsReserve(c, s, call);
    e := Unchanged;
    if reserve.choice.Some? { e := ReserveEffect(c, s, reserve); }
  }

  lemma UpdateEffect(c: Checks, s: Store, call: Call) returns (e: Effect)
    requires WellFormed(c, s) && call.intent.Update?
    ensures Legal(c, s, call, e) && Exec(c, s, call) == (After(s, e), Exec(c, s, call).1)
    ensures match e case Unchanged => Exec(c, s, call).1.Failed? case _ => Exec(c, s, call).1 == Saved(e.agent)
  {
    hide ValidateAgent, SoundAgent, NormalizeProfile, Trim, ValidIdentity, ValidIdentifier;
    e := Unchanged;
    var read := ReadIn(c, s, call.intent);
    if read.Ok? && PrepareOn(c, s, read.value, call).Ok? {
      var agent := Replacement(read.value, call.intent.replacement, call.now);
      ValidIsSound(c, agent, call.now);
      e := Replaces(agent);
    }
  }

  lemma TransitEffect(c: Checks, s: Store, call: Call) returns (e: Effect)
    requires WellFormed(c, s) && call.intent.Transit?
    ensures Legal(c, s, call, e) && Exec(c, s, call) == (After(s, e), Exec(c, s, call).1)
    ensures match e case Unchanged => Exec(c, s, call).1.Failed? case _ => Exec(c, s, call).1 == Saved(e.agent)
  {
    hide SoundAgent, Trim, ValidIdentity, ValidIdentifier, ValidText, AgentReady, TransitionAllowed;
    e := Unchanged;
    var read := ReadIn(c, s, call.intent);
    if read.Ok? && PrepareOn(c, s, read.value, call).Ok? {
      MovingKeepsSound(c, read.value, call.intent.to, call.now);
      e := Moves(Moved(read.value, call.intent.to, call.now), MoveEvent(read.value, call.intent.to, call.intent.reason, call.now));
    }
  }

  lemma RecordEffect(c: Checks, s: Store, call: Call) returns (e: Effect)
    requires WellFormed(c, s) && call.intent.Record?
    ensures Legal(c, s, call, e) && Exec(c, s, call) == (After(s, e), Exec(c, s, call).1)
    ensures match e case Unchanged => Exec(c, s, call).1.Failed? case _ => Exec(c, s, call).1 == Saved(e.agent)
  {
    hide ValidateAgent, SoundAgent, Trim, ValidIdentity, ValidIdentifier, WithOutcome, Milliseconds, Replacement, Moved, MoveEvent, Registration, NewAssignment;
    e := Unchanged;
    var read := ReadIn(c, s, call.intent);
    if read.Ok? {
      var prepared := PrepareOn(c, s, read.value, call);
      if prepared.Ok? && CommitIn(s, prepared.value, call.intent.expected).1.Ok? {
        var agent, result := prepared.value.agent, prepared.value.result;
        var key := AssignmentKey(result.owner, result.assignment);
        ValidIsSound(c, agent, call.now);
        assert key in s.assignments && key == AssignmentKey(s.assignments[key].owner, s.assignments[key].id);
        e := Closes(agent, key, result);
      }
    }
  }

  lemma ExecEffect(c: Checks, s: Store, call: Call) returns (e: Effect)
    requires WellFormed(c, s)
    ensures Legal(c, s, call, e) && Exec(c, s, call).0 == After(s, e)
    ensures Written(s, Exec(c, s, call).1) == if e.Unchanged? then None else Some(KeyOf(e.agent))
  {
    hide Exec, Follows, SoundAgent, Registration, MoveEvent, NewAssignment;
    if call.intent.Register? { e := RegisterEffect(c, s, call); }
    else if call.intent.Assign? { e := AssignEffect(c, s, call); }
    else if call.intent.Update? { e := UpdateEffect(c, s, call); }
    else if call.intent.Transit? { e := TransitEffect(c, s, call); }
    else { e := RecordEffect(c, s, call); }
  }

  ghost function WorldAfter(w: World, e: Effect, call: Call): World {
    if e.Unchanged? then w
    else World(After(w.store, e), w.history[KeyOf(e.agent) := Past(w, KeyOf(e.agent)) + [Entry(e.agent, call)]])
  }

  lemma ApplyIsEffect(c: Checks, w: World, call: Call) returns (e: Effect)
    requires WellFormed(c, w.store)
    ensures Legal(c, w.store, call, e) && Apply(c, w, call) == WorldAfter(w, e, call)
  {
    hide Exec, Legal, WellFormed, Written;
    e := ExecEffect(c, w.store, call);
  }

  // What every execution keeps

  /** Revisions 1, 2, 3, ..., each version made from the one before it. */
  ghost predicate GoodHistory(c: Checks, k: Key, h: seq<Entry>) {
    && h != [] && h[0].call.intent.Register? && h[0].agent == Registration(h[0].call.intent.input, h[0].call.now)
    && (forall i :: 0 <= i < |h| ==> h[i].agent.revision == i + 1 && KeyOf(h[i].agent) == k && SoundAgent(c, h[i].agent))
    && (forall i :: 0 < i < |h| ==> Follows(h[i - 1].agent, h[i]))
  }

  ghost predicate Histories(c: Checks, w: World) {
    && w.history.Keys == w.store.agents.Keys
    && forall k :: k in w.history ==> GoodHistory(c, k, w.history[k]) && w.history[k][|w.history[k]| - 1].agent == w.store.agents[k]
  }

  function LedgerOf(h: seq<Entry>): seq<Transition> {
    if |h| < 2 then []
    else
      var v := h[|h| - 1];
      LedgerOf(h[..|h| - 1]) +
        if v.call.intent.Transit? then [MoveEvent(h[|h| - 2].agent, v.call.intent.to, v.call.intent.reason, v.call.now)] else []
  }

  ghost predicate LedgersMatch(w: World) {
    forall k :: k in w.history ==> Ledger(w.store, k) == LedgerOf(w.history[k])
  }

  function AssignedTo(s: Store, k: Key): set<AssignmentKey> {
    set ak | ak in s.assignments && AgentKey(s.assignments[ak]) == k
  }

  function FinishedBy(s: Store, k: Key): set<AssignmentKey> {
    set ak | ak in s.outcomes && ak in s.assignments && AgentKey(s.assignments[ak]) == k
  }

  function Reservations(h: seq<Entry>): nat {
    if h == [] then 0 else Reservations(h[..|h| - 1]) + if h[|h| - 1].call.intent.Assign? then 1 else 0
  }

  function OutcomesOf(h: seq<Entry>): seq<Outcome> {
    if h == [] then []
    else
      var v := h[|h| - 1];
      OutcomesOf(h[..|h| - 1]) + if v.call.intent.Record? then [Recorded(v.call.intent.outcome, v.call.now)] else []
  }

  ghost predicate Counted(w: World) {
    forall k :: k in w.history ==>
      |AssignedTo(w.store, k)| == Reservations(w.history[k]) && |FinishedBy(w.store, k)| == |OutcomesOf(w.history[k])|
  }

  ghost predicate Invariant(c: Checks, w: World) {
    WellFormed(c, w.store) && Histories(c, w) && LedgersMatch(w) && Counted(w)
  }

  lemma FollowsAdvances(before: Agent, v: Entry)
    requires Follows(before, v)
    ensures v.agent.revision == before.revision + 1 && KeyOf(v.agent) == KeyOf(before)
  {
    hide AgentReady, Candidate, TransitionAllowed, NormalizeProfile, WithOutcome;
  }

  /** What Legal says of the agent's own record. */
  lemma LegalRecord(c: Checks, s: Store, call: Call, e: Effect)
    requires Legal(c, s, call, e) && !e.Unchanged?
    ensures var k := KeyOf(e.agent);
      && SoundAgent(c, e.agent)
      && (e.Adds? <==> k !in s.agents)
      && (e.Adds? ==> call.intent.Register? && e.agent == Registration(call.intent.input, call.now) && e.agent.revision == 1)
      && (!e.Adds? ==> Follows(s.agents[k], Entry(e.agent, call)) && e.agent.revision == s.agents[k].revision + 1)
    ensures After(s, e).agents == s.agents[KeyOf(e.agent) := e.agent]
    ensures call.intent.Transit? <==> e.Moves?
    ensures call.intent.Assign? <==> e.Reserves?
    ensures call.intent.Record? <==> e.Closes?
  {
    hide SoundAgent, Registration, Follows, MoveEvent, NewAssignment;
    if e.Adds? { FirstRevision(call); }
    else { FollowsAdvances(s.agents[KeyOf(e.agent)], Entry(e.agent, call)); }
    FollowsKind(c, s, call, e);
  }

  lemma FollowsKind(c: Checks, s: Store, call: Call, e: Effect)
    requires Legal(c, s, call, e) && !e.Unchanged?
    ensures call.intent.Register? ==> e.Adds?
    ensures call.intent.Transit? <==> e.Moves?
    ensures call.intent.Assign? <==> e.Reserves?
    ensures call.intent.Record? <==> e.Closes?
  {
    hide SoundAgent, Registration, Replacement, Moved, Finished, Reserved, Candidate, AgentReady, TransitionAllowed, MoveEvent, NewAssignment;
  }

  lemma LegalMaps(c: Checks, s: Store, call: Call, e: Effect)
    requires Legal(c, s, call, e) && !e.Unchanged?
    ensures !e.Reserves? ==> After(s, e).assignments == s.assignments
    ensures e.Reserves? ==> AgentKey(e.assignment) == KeyOf(e.agent)
    ensures e.Reserves? ==>
      After(s, e).assignments == s.assignments[AssignmentKey(e.assignment.owner, e.assignment.id) := e.assignment]
    ensures After(s, e).outcomes.Keys <= s.outcomes.Keys + (if e.Closes? then {e.key} else {})
    ensures e.Closes? ==> e.key in s.assignments
    ensures After(s, e).transitions.Keys <= s.transitions.Keys + {KeyOf(e.agent)}
  {
    hide SoundAgent, Follows, Registration, MoveEvent, NewAssignment;
  }

  lemma EffectKeepsWellFormed(c: Checks, s: Store, call: Call, e: Effect)
    requires WellFormed(c, s) && Legal(c, s, call, e)
    ensures WellFormed(c, After(s, e))
  {
    hide SoundAgent, Follows, Registration, Legal;
    if e.Unchanged? { return; }
    LegalRecord(c, s, call, e);
    LegalMaps(c, s, call, e);
    AfterStays(c, s, After(s, e), e);
  }

  lemma AfterStays(c: Checks, s: Store, t: Store, e: Effect)
    requires WellFormed(c, s) && !e.Unchanged? && SoundAgent(c, e.agent)
    requires t.agents == s.agents[KeyOf(e.agent) := e.agent]
    requires !e.Reserves? ==> t.assignments == s.assignments
    requires e.Reserves? ==> AgentKey(e.assignment) == KeyOf(e.agent)
    requires e.Reserves? ==>
      t.assignments == s.assignments[AssignmentKey(e.assignment.owner, e.assignment.id) := e.assignment]
    requires t.outcomes.Keys <= s.outcomes.Keys + (if e.Closes? then {e.key} else {})
    requires e.Closes? ==> e.key in s.assignments
    requires t.transitions.Keys <= s.transitions.Keys + {KeyOf(e.agent)}
    ensures WellFormed(c, t)
  {
    hide SoundAgent;
  }

  lemma HistoryGrows(c: Checks, k: Key, h: seq<Entry>, v: Entry)
    requires GoodHistory(c, k, h) && Follows(h[|h| - 1].agent, v) && KeyOf(v.agent) == k && SoundAgent(c, v.agent)
    requires v.agent.revision == h[|h| - 1].agent.revision + 1
    ensures GoodHistory(c, k, h + [v])
  {
    hide SoundAgent, Follows, Registration;
  }

  lemma HistoryStarts(c: Checks, k: Key, v: Entry)
    requires v.call.intent.Register? && v.agent == Registration(v.call.intent.input, v.call.now)
    requires v.agent.revision == 1 && KeyOf(v.agent) == k && SoundAgent(c, v.agent)
    ensures GoodHistory(c, k, [v])
  {
    hide SoundAgent, Follows, Registration;
  }

  lemma EffectExtends(c: Checks, w: World, call: Call, e: Effect)
    requires Histories(c, w) && Legal(c, w.store, call, e)
    ensures Histories(c, WorldAfter(w, e, call))
  {
    hide SoundAgent, Follows, Registration, Legal, After, GoodHistory;
    if e.Unchanged? { return; }
    var k, v := KeyOf(e.agent), Entry(e.agent, call);
    LegalRecord(c, w.store, call, e);
    if e.Adds? {
      HistoryStarts(c, k, v);
      assert [] + [v] == [v];
    } else {
      HistoryGrows(c, k, Past(w, k), v);
    }
  }

  lemma FirstRevision(call: Call)
    requires call.intent.Register?
    ensures Registration(call.intent.input, call.now).revision == 1
    ensures Registration(call.intent.input, call.now).state == Registered
  {
    hide Trim, NormalizeProfile;
  }

  lemma AfterLedger(s: Store, e: Effect, k: Key)
    requires !e.Unchanged?
    ensures Ledger(After(s, e), k) == Ledger(s, k) + if e.Moves? && k == KeyOf(e.agent) then [e.event] else []
  {}

  lemma EffectKeepsLedgers(c: Checks, w: World, call: Call, e: Effect)
    requires WellFormed(c, w.store) && Histories(c, w) && LedgersMatch(w) && Legal(c, w.store, call, e)
    ensures LedgersMatch(WorldAfter(w, e, call))
  {
    hide SoundAgent, Follows, Registration, MoveEvent, After, Legal, Ledger, WellFormed, GoodHistory;
    if e.Unchanged? { return; }
    LegalRecord(c, w.store, call, e);
    forall k | k in WorldAfter(w, e, call).history
      ensures Ledger(After(w.store, e), k) == LedgerOf(WorldAfter(w, e, call).history[k])
    {
      AfterLedger(w.store, e, k);
      if k == KeyOf(e.agent) { LedgerGrows(c, w, call, e); }
    }
  }

  lemma LedgerOfMore(past: seq<Entry>, v: Entry)
    ensures past == [] ==> LedgerOf(past + [v]) == []
    ensures past != [] ==> (
      var added := if v.call.intent.Transit? then [MoveEvent(past[|past| - 1].agent, v.call.intent.to, v.call.intent.reason, v.call.now)] else [];
      LedgerOf(past + [v]) == LedgerOf(past) + added)
  {
    hide MoveEvent;
    var h := past + [v];
    assert h[..|past|] == past;
    assert past != [] ==> h[|h| - 2] == past[|past| - 1];
  }

  lemma LegalEvent(c: Checks, s: Store, call: Call, e: Effect)
    requires Legal(c, s, call, e) && e.Moves?
    ensures KeyOf(e.agent) in s.agents
    ensures e.event == MoveEvent(s.agents[KeyOf(e.agent)], call.intent.to, call.intent.reason, call.now)
  {
    hide SoundAgent, Follows, Registration, MoveEvent, NewAssignment;
  }

  lemma NoLedgerYet(c: Checks, s: Store, k: Key)
    requires WellFormed(c, s) && k !in s.agents
    ensures Ledger(s, k) == []
  {
    hide SoundAgent;
  }

  lemma LedgerGrows(c: Checks, w: World, call: Call, e: Effect)
    requires WellFormed(c, w.store) && Histories(c, w) && LedgersMatch(w) && Legal(c, w.store, call, e) && !e.Unchanged?
    ensures var k := KeyOf(e.agent);
      LedgerOf(Past(w, k) + [Entry(e.agent, call)]) == Ledger(w.store, k) + if e.Moves? then [e.event] else []
  {
    hide SoundAgent, Follows, Registration, MoveEvent, After, GoodHistory, LedgerOf, Ledger, Legal, WellFormed;
    var k := KeyOf(e.agent);
    LegalRecord(c, w.store, call, e);
    LedgerOfMore(Past(w, k), Entry(e.agent, call));
    if e.Adds? {
      NoLedgerYet(c, w.store, k);
    } else {
      NonEmptyHistory(c, k, Past(w, k));
      if e.Moves? { LegalEvent(c, w.store, call, e); }
    }
  }

  lemma NonEmptyHistory(c: Checks, k: Key, h: seq<Entry>)
    requires GoodHistory(c, k, h)
    ensures h != []
  {
    hide SoundAgent, Follows, Registration;
  }

  lemma EffectKeepsCounts(c: Checks, w: World, call: Call, e: Effect)
    requires WellFormed(c, w.store) && Histories(c, w) && Counted(w) && Legal(c, w.store, call, e)
    ensures Counted(WorldAfter(w, e, call))
  {
    hide SoundAgent, Follows, Registration, Legal, After, WellFormed, GoodHistory, AssignedTo, FinishedBy, Reservations, OutcomesOf;
    if e.Unchanged? { return; }
    LegalRecord(c, w.store, call, e);
    forall k | k in WorldAfter(w, e, call).history
      ensures var h := WorldAfter(w, e, call).history[k];
        |AssignedTo(After(w.store, e), k)| == Reservations(h) && |FinishedBy(After(w.store, e), k)| == |OutcomesOf(h)|
    {
      StoreCounts(c, w.store, call, e, k);
      if k == KeyOf(e.agent) {
        HistoryCounts(Past(w, k), Entry(e.agent, call));
        if k !in w.history { NothingAssigned(c, w.store, k); }
      }
    }
  }

  lemma HistoryCounts(past: seq<Entry>, v: Entry)
    ensures Reservations(past + [v]) == Reservations(past) + if v.call.intent.Assign? then 1 else 0
    ensures |OutcomesOf(past + [v])| == |OutcomesOf(past)| + if v.call.intent.Record? then 1 else 0
    ensures Reservations([]) == 0 && OutcomesOf([]) == []
  {
    hide Recorded;
    assert (past + [v])[..|past|] == past;
  }

  lemma StoreCounts(c: Checks, s: Store, call: Call, e: Effect, k: Key)
    requires WellFormed(c, s) && Legal(c, s, call, e) && !e.Unchanged?
    ensures |AssignedTo(After(s, e), k)| == |AssignedTo(s, k)| + if e.Reserves? && k == KeyOf(e.agent) then 1 else 0
    ensures |FinishedBy(After(s, e), k)| == |FinishedBy(s, k)| + if e.Closes? && k == KeyOf(e.agent) then 1 else 0
  {
    hide SoundAgent, Follows, Registration, MoveEvent, NewAssignment, AssignedTo, FinishedBy;
    if e.Reserves? {
      OneMoreAssigned(s, After(s, e), AssignmentKey(e.assignment.owner, e.assignment.id), e.assignment, k);
      SameFinished(s, After(s, e), AssignmentKey(e.assignment.owner, e.assignment.id), e.assignment, k);
    } else if e.Closes? {
      OneMoreFinished(s, After(s, e), e.key, e.result, k);
    } else {
      SameCounts(s, After(s, e), k);
    }
  }

  lemma SameCounts(s: Store, t: Store, k: Key)
    requires t.assignments == s.assignments && t.outcomes == s.outcomes
    ensures AssignedTo(t, k) == AssignedTo(s, k) && FinishedBy(t, k) == FinishedBy(s, k)
  {}

  lemma OneMoreAssigned(s: Store, t: Store, ak: AssignmentKey, a: Assignment, k: Key)
    requires ak !in s.assignments && t.assignments == s.assignments[ak := a]
    ensures |AssignedTo(t, k)| == |AssignedTo(s, k)| + if AgentKey(a) == k then 1 else 0
  {
    hide AgentKey;
    var before, after := AssignedTo(s, k), AssignedTo(t, k);
    forall x ensures x in after <==> x in before || (x == ak && AgentKey(a) == k) {
      if x != ak && x in s.assignments { assert t.assignments[x] == s.assignments[x]; }
    }
    if AgentKey(a) == k { assert after == before + {ak}; } else { assert after == before; }
  }

  lemma SameFinished(s: Store, t: Store, ak: AssignmentKey, a: Assignment, k: Key)
    requires ak !in s.assignments && t.assignments == s.assignments[ak := a]
    requires s.outcomes.Keys <= s.assignments.Keys && t.outcomes == s.outcomes
    ensures FinishedBy(t, k) == FinishedBy(s, k)
  {}

  lemma OneMoreFinished(s: Store, t: Store, ak: AssignmentKey, o: AssignmentOutcome, k: Key)
    requires ak in s.assignments && ak !in s.outcomes && t.outcomes == s.outcomes[ak := o] && t.assignments == s.assignments
    ensures |FinishedBy(t, k)| == |FinishedBy(s, k)| + if AgentKey(s.assignments[ak]) == k then 1 else 0
    ensures AssignedTo(t, k) == AssignedTo(s, k)
  {
    assert FinishedBy(t, k) == FinishedBy(s, k) + if AgentKey(s.assignments[ak]) == k then {ak} else {};
  }

  lemma NothingAssigned(c: Checks, s: Store, k: Key)
    requires WellFormed(c, s) && k !in s.agents
    ensures AssignedTo(s, k) == {} && FinishedBy(s, k) == {}
  {
    hide SoundAgent;
  }

  lemma {:induction false} RunKeepsInvariant(c: Checks, calls: seq<Call>)
    ensures Invariant(c, RunCalls(c, calls))
  {
    hide WellFormed, Histories, LedgersMatch, Counted, Legal, Apply, WorldAfter;
    if calls == [] {
      NothingIsGood(c);
    } else {
      var w, call := RunCalls(c, calls[..|calls| - 1]), calls[|calls| - 1];
      RunKeepsInvariant(c, calls[..|calls| - 1]);
      var e := ApplyIsEffect(c, w, call);
      WorldKeepsInvariant(c, w, call, e);
    }
  }

  lemma WorldKeepsInvariant(c: Checks, w: World, call: Call, e: Effect)
    requires Invariant(c, w) && Legal(c, w.store, call, e)
    ensures Invariant(c, WorldAfter(w, e, call))
  {
    hide WellFormed, Histories, LedgersMatch, Counted, Legal;
    EffectKeepsWellFormed(c, w.store, call, e);
    EffectExtends(c, w, call, e);
    EffectKeepsLedgers(c, w, call, e);
    EffectKeepsCounts(c, w, call, e);
  }

  lemma NothingIsGood(c: Checks)
    ensures Invariant(c, NOTHING)
  {}

  /** Every agent's history is its registration followed by revisions 2, 3, ...,
      each the exact effect of its command on the one before, up to the current record. */
  lemma HistoriesAreGapFree(c: Checks, calls: seq<Call>, k: Key)
    requires k in RunCalls(c, calls).store.agents
    ensures var w := RunCalls(c, calls);
      && k in w.history && GoodHistory(c, k, w.history[k])
      && |w.history[k]| == w.store.agents[k].revision && w.history[k][|w.history[k]| - 1].agent == w.store.agents[k]
  {
    hide GoodHistory, WellFormed, LedgersMatch, Counted, Apply;
    RunKeepsInvariant(c, calls);
    LastRevision(c, k, RunCalls(c, calls).history[k]);
  }

  // No agent record is ever reused

  lemma {:induction false} RunExtendsHistory(c: Checks, calls: seq<Call>, n: nat, k: Key)
    requires n <= |calls| && k in RunCalls(c, calls[..n]).history
    ensures k in RunCalls(c, calls).history && RunCalls(c, calls[..n]).history[k] <= RunCalls(c, calls).history[k]
  {
    hide Apply;
    if n == |calls| {
      assert calls[..n] == calls;
    } else {
      var m := |calls| - 1;
      assert calls[..m][..n] == calls[..n];
      RunExtendsHistory(c, calls[..m], n, k);
      ApplyExtends(c, RunCalls(c, calls[..m]), calls[m], k);
    }
  }

  lemma ApplyExtends(c: Checks, w: World, call: Call, k: Key)
    requires k in w.history
    ensures k in Apply(c, w, call).history && w.history[k] <= Apply(c, w, call).history[k]
  {
    hide Exec;
  }

  /** Revisions only grow, and one revision of an agent is one record: a
      compare-and-swap on the revision cannot be deceived. */
  lemma EqualRevisionSameRecord(c: Checks, calls: seq<Call>, n: nat, k: Key)
    requires n <= |calls| && k in RunCalls(c, calls[..n]).store.agents
    ensures var before, after := RunCalls(c, calls[..n]).store, RunCalls(c, calls).store;
      && k in after.agents && before.agents[k].revision <= after.agents[k].revision
      && (before.agents[k].revision == after.agents[k].revision ==> before.agents[k] == after.agents[k])
  {
    hide GoodHistory, WellFormed, LedgersMatch, Counted, Apply;
    RunKeepsInvariant(c, calls[..n]);
    RunKeepsInvariant(c, calls);
    RunExtendsHistory(c, calls, n, k);
    var g, h := RunCalls(c, calls[..n]).history[k], RunCalls(c, calls).history[k];
    LastRevision(c, k, g);
    LastRevision(c, k, h);
    assert g == h[..|g|];
  }

  // The ledger

  function EndState(ledger: seq<Transition>): LifecycleState {
    if ledger == [] then Registered else ledger[|ledger| - 1].to
  }

  ghost predicate FaithfulLedger(ledger: seq<Transition>, h: seq<Entry>) {
    && h != [] && EndState(ledger) == h[|h| - 1].agent.state
    && (forall i :: 0 <= i < |ledger| ==> ledger[i].from == EndState(ledger[..i]) && TransitionAllowed(ledger[i].from, ledger[i].to))
    && (forall i, j :: 0 <= i < j < |ledger| ==> ledger[i].revision < ledger[j].revision)
    && (forall i :: 0 <= i < |ledger| ==> Evidenced(ledger[i], h))
  }

  /** The entry is backed by the version it names: the lifecycle moved there, and
      it moved to enabled only when the agent was ready at the clock reading used. */
  ghost predicate Evidenced(t: Transition, h: seq<Entry>) {
    && 2 <= t.revision <= |h|
    && var before, after := h[t.revision - 2].agent, h[t.revision - 1];
       && before.state == t.from && after.agent.state == t.to && t.occurredAt == after.call.now
       && after.call.intent.Transit? && t.reason == Trim(after.call.intent.reason)
       && (t.to == Enabled ==> AgentReady(before, after.call.checkedAt, false))
  }

  lemma ShorterHistory(c: Checks, k: Key, h: seq<Entry>)
    requires GoodHistory(c, k, h) && |h| > 1
    ensures GoodHistory(c, k, h[..|h| - 1]) && Follows(h[|h| - 2].agent, h[|h| - 1])
    ensures h[|h| - 2].agent.revision == |h| - 1
  {
    hide SoundAgent, Follows, Registration;
    var g := h[..|h| - 1];
    forall i | 0 <= i < |g| ensures g[i] == h[i] {}
    assert Follows(h[|h| - 2].agent, h[|h| - 1]);
  }

  lemma MoveIsEvidenced(before: Agent, v: Entry)
    requires Follows(before, v)
    ensures !v.call.intent.Transit? ==> v.agent.state == before.state
    ensures v.call.intent.Transit? ==>
      EntersLedger(before, v, MoveEvent(before, v.call.intent.to, v.call.intent.reason, v.call.now))
  {
    hide AgentReady, TransitionAllowed, Trim, NormalizeProfile, WithOutcome, Candidate;
  }

  lemma FirstIsRegistered(c: Checks, k: Key, h: seq<Entry>)
    requires GoodHistory(c, k, h)
    ensures h[0].agent.state == Registered
  {
    hide SoundAgent, Follows;
    FirstRevision(h[0].call);
  }

  lemma {:induction false} LedgerOfIsFaithful(c: Checks, k: Key, h: seq<Entry>)
    requires GoodHistory(c, k, h)
    ensures FaithfulLedger(LedgerOf(h), h)
  {
    hide GoodHistory, Follows, MoveEvent, FaithfulLedger, EntersLedger;
    NonEmptyHistory(c, k, h);
    if |h| == 1 {
      FirstIsRegistered(c, k, h);
      NoLedger(h);
    } else {
      var n := |h| - 1;
      var g, before := LedgerOf(h[..n]), h[n - 1].agent;
      ShorterHistory(c, k, h);
      LedgerOfIsFaithful(c, k, h[..n]);
      MoveIsEvidenced(before, h[n]);
      var call := h[n].call;
      if call.intent.Transit? {
        LedgerStep(h, g, MoveEvent(before, call.intent.to, call.intent.reason, call.now));
      } else {
        LedgerStays(h, g);
        assert g + [] == g;
      }
    }
  }

  lemma NoLedger(h: seq<Entry>)
    requires |h| == 1 && h[0].agent.state == Registered
    ensures FaithfulLedger([], h)
  {}

  lemma EvidencedLater(t: Transition, h: seq<Entry>)
    requires h != [] && Evidenced(t, h[..|h| - 1])
    ensures Evidenced(t, h) && t.revision < |h|
  {
    hide AgentReady;
    var g := h[..|h| - 1];
    assert g[t.revision - 2] == h[t.revision - 2] && g[t.revision - 1] == h[t.revision - 1];
  }

  /** The event that the version after `before` adds to the ledger. */
  ghost predicate EntersLedger(before: Agent, v: Entry, t: Transition) {
    && t.from == before.state && t.to == v.agent.state && t.revision == before.revision + 1 && t.occurredAt == v.call.now
    && v.call.intent.Transit? && t.reason == Trim(v.call.intent.reason)
    && TransitionAllowed(t.from, t.to) && (t.to == Enabled ==> AgentReady(before, v.call.checkedAt, false))
  }

  lemma LedgerStep(h: seq<Entry>, g: seq<Transition>, t: Transition)
    requires |h| > 1 && FaithfulLedger(g, h[..|h| - 1]) && h[|h| - 2].agent.revision == |h| - 1
    requires EntersLedger(h[|h| - 2].agent, h[|h| - 1], t)
    ensures FaithfulLedger(g + [t], h)
  {
    hide AgentReady, TransitionAllowed, Evidenced, EntersLedger;
    var ledger := g + [t];
    NewIsEvidenced(h, t);
    forall i | 0 <= i < |g| ensures Evidenced(g[i], h) && g[i].revision < |h| { EvidencedLater(g[i], h); }
    forall i | 0 <= i < |ledger|
      ensures ledger[i].from == EndState(ledger[..i]) && TransitionAllowed(ledger[i].from, ledger[i].to)
    {
      if i < |g| { assert ledger[..i] == g[..i] && ledger[i] == g[i]; } else { assert ledger[..i] == g; }
    }
  }

  lemma NewIsEvidenced(h: seq<Entry>, t: Transition)
    requires |h| > 1 && h[|h| - 2].agent.revision == |h| - 1 && EntersLedger(h[|h| - 2].agent, h[|h| - 1], t)
    ensures Evidenced(t, h) && t.revision == |h|
    ensures TransitionAllowed(t.from, t.to) && t.from == h[|h| - 2].agent.state && t.to == h[|h| - 1].agent.state
  {
    hide AgentReady, TransitionAllowed;
  }

  lemma LedgerStays(h: seq<Entry>, g: seq<Transition>)
    requires |h| > 1 && FaithfulLedger(g, h[..|h| - 1]) && h[|h| - 1].agent.state == h[|h| - 2].agent.state
    ensures FaithfulLedger(g, h)
  {
    hide AgentReady, TransitionAllowed, Evidenced;
    forall i | 0 <= i < |g| ensures Evidenced(g[i], h) { EvidencedLater(g[i], h); }
  }

  /** Replaying an agent's ledger from registered ends in its current state; the
      ledger is chained, every edge is allowed, and enabled is entered only ready. */
  lemma LedgerReplays(c: Checks, calls: seq<Call>, k: Key)
    requires k in RunCalls(c, calls).store.agents
    ensures var w := RunCalls(c, calls);
      && k in w.history && FaithfulLedger(Ledger(w.store, k), w.history[k])
      && EndState(Ledger(w.store, k)) == w.store.agents[k].state
      && |w.history[k]| == w.store.agents[k].revision
  {
    hide GoodHistory, FaithfulLedger, EndState, Ledger, WellFormed, Counted;
    RunKeepsInvariant(c, calls);
    var w := RunCalls(c, calls);
    LedgerOfIsFaithful(c, k, w.history[k]);
    LastRevision(c, k, w.history[k]);
    FaithfulEnds(LedgerOf(w.history[k]), w.history[k]);
  }

  lemma LastRevision(c: Checks, k: Key, h: seq<Entry>)
    requires GoodHistory(c, k, h)
    ensures h != [] && h[|h| - 1].agent.revision == |h|
  {
    hide SoundAgent, Follows, Registration;
  }

  lemma FaithfulEnds(ledger: seq<Transition>, h: seq<Entry>)
    requires FaithfulLedger(ledger, h)
    ensures h != [] && EndState(ledger) == h[|h| - 1].agent.state
  {
    hide Evidenced;
  }

  /** A quarantined agent is enabled again only after it was disabled first. */
  lemma QuarantineLeavesThroughDisabled(c: Checks, calls: seq<Call>, k: Key, i: nat, j: nat)
    requires k in RunCalls(c, calls).store.agents
    requires var ledger := Ledger(RunCalls(c, calls).store, k);
      i < j < |ledger| && ledger[i].to == Quarantined && ledger[j].to == Enabled
    ensures i + 1 < j && Ledger(RunCalls(c, calls).store, k)[i + 1].to == Disabled
  {
    hide FaithfulLedger, Ledger, RunCalls;
    LedgerReplays(c, calls, k);
    var w := RunCalls(c, calls);
    QuarantineEdge(Ledger(w.store, k), w.history[k], i, j);
  }

  lemma QuarantineEdge(ledger: seq<Transition>, h: seq<Entry>, i: nat, j: nat)
    requires FaithfulLedger(ledger, h) && i < j < |ledger| && ledger[i].to == Quarantined && ledger[j].to == Enabled
    ensures i + 1 < j && ledger[i + 1].to == Disabled
  {
    hide Evidenced;
    assert ledger[i + 1].from == EndState(ledger[..i + 1]);
  }

  // Slots

  lemma FollowsSlots(before: Agent, v: Entry)
    requires Follows(before, v)
    ensures v.agent.availability.active == before.availability.active
      + (if v.call.intent.Assign? then 1 else 0) - (if v.call.intent.Record? then 1 else 0)
  {
    hide AgentReady, TransitionAllowed, Trim, NormalizeProfile, WithOutcome, Candidate;
  }

  lemma {:induction false} SlotsBalance(c: Checks, k: Key, h: seq<Entry>)
    requires GoodHistory(c, k, h)
    ensures h != []
    ensures h[|h| - 1].agent.availability.active + |OutcomesOf(h)| == h[0].agent.availability.active + Reservations(h)
  {
    hide GoodHistory, Follows, Recorded;
    NonEmptyHistory(c, k, h);
    var n := |h| - 1;
    HistoryCounts(h[..n], h[n]);
    assert h == h[..n] + [h[n]];
    if n > 0 {
      ShorterHistory(c, k, h);
      SlotsBalance(c, k, h[..n]);
      FollowsSlots(h[n - 1].agent, h[n]);
    } else {
      FirstCall(c, k, h);
    }
  }

  lemma FirstCall(c: Checks, k: Key, h: seq<Entry>)
    requires GoodHistory(c, k, h)
    ensures h[0].call.intent.Register? && h[0].agent == Registration(h[0].call.intent.input, h[0].call.now)
  {
    hide SoundAgent, Follows, Registration;
  }

  lemma SoundBounds(c: Checks, a: Agent)
    requires SoundAgent(c, a)
    ensures 0 <= a.availability.active <= a.availability.max
    ensures a.reliability.meanLatencyMs >= 0.0 && a.reliability.consecutiveFailures <= a.reliability.failures
  {
    hide ValidProfile, ValidIdentity, ValidIdentifier, ValidText;
  }

  lemma FirstIsSound(c: Checks, k: Key, h: seq<Entry>)
    requires GoodHistory(c, k, h)
    ensures SoundAgent(c, h[0].agent)
  {
    hide SoundAgent, Follows, Registration;
  }

  /** Slot conservation: the slots in use are those the agent was registered with
      and those of the assignments without an outcome, and never exceed the maximum. */
  lemma SlotConservation(c: Checks, calls: seq<Call>, k: Key)
    requires k in RunCalls(c, calls).store.agents
    ensures var w := RunCalls(c, calls);
      var a := w.store.agents[k].availability;
      && FinishedBy(w.store, k) <= AssignedTo(w.store, k)
      && k in w.history && w.history[k] != []
      && w.history[k][0].agent.availability.active >= 0
      && a.active == w.history[k][0].agent.availability.active + |AssignedTo(w.store, k) - FinishedBy(w.store, k)|
      && a.active <= a.max
  {
    hide GoodHistory, LedgersMatch, Reservations, OutcomesOf, SoundAgent;
    RunKeepsInvariant(c, calls);
    var w := RunCalls(c, calls);
    SlotsBalance(c, k, w.history[k]);
    FirstIsSound(c, k, w.history[k]);
    SoundBounds(c, w.history[k][0].agent);
    SoundBounds(c, w.store.agents[k]);
    SubsetDifference(FinishedBy(w.store, k), AssignedTo(w.store, k));
  }

  lemma SubsetDifference<T>(a: set<T>, b: set<T>)
    requires a <= b
    ensures |b - a| == |b| - |a|
  {
    assert b == a + (b - a);
  }

  /** So the guard on freed slots never refuses an assignment that is still open,
      whatever number of active assignments the agent was registered with. */
  lemma OpenAssignmentHasSlot(c: Checks, calls: seq<Call>, ak: AssignmentKey)
    requires var s := RunCalls(c, calls).store; ak in s.assignments && ak !in s.outcomes
    ensures var s := RunCalls(c, calls).store;
      AgentKey(s.assignments[ak]) in s.agents && s.agents[AgentKey(s.assignments[ak])].availability.active > 0
  {
    hide LedgersMatch, Counted, Histories, SoundAgent;
    RunKeepsInvariant(c, calls);
    var s := RunCalls(c, calls).store;
    var k := AgentKey(s.assignments[ak]);
    SlotConservation(c, calls, k);
    var open := AssignedTo(s, k) - FinishedBy(s, k);
    assert ak in open;
    assert |open| > 0;
  }

  // Evidence

  function Successes(log: seq<Outcome>): nat {
    if log == [] then 0 else Successes(log[..|log| - 1]) + if log[|log| - 1].success then 1 else 0
  }

  function TrailingFailures(log: seq<Outcome>): nat {
    if log == [] || log[|log| - 1].success then 0 else TrailingFailures(log[..|log| - 1]) + 1
  }

  function LatencySum(log: seq<Outcome>): real {
    if log == [] then 0.0 else LatencySum(log[..|log| - 1]) + Milliseconds(log[|log| - 1].latency) as real
  }

  /** The evidence is what the log of outcomes says, on top of what the agent was registered with. */
  ghost predicate EvidenceOf(r: Reliability, base: Reliability, log: seq<Outcome>) {
    && r.successes == base.successes + Successes(log)
    && r.successes + r.failures == base.successes + base.failures + |log|
    && r.consecutiveFailures == TrailingFailures(log) + (if Successes(log) == 0 then base.consecutiveFailures else 0)
    && r.meanLatencyMs * (r.successes + r.failures) as real
       == base.meanLatencyMs * (base.successes + base.failures) as real + LatencySum(log)
    && r.lastOutcomeAt == if log == [] then base.lastOutcomeAt else log[|log| - 1].recordedAt
  }

  lemma DivideThenMultiply(x: real, n: nat)
    requires n > 0
    ensures (x / n as real) * n as real == x
  {}

  lemma RunningMean(r: Reliability, o: Outcome)
    ensures var t := WithOutcome(r, o);
      && t.successes + t.failures == r.successes + r.failures + 1
      && t.meanLatencyMs * (t.successes + t.failures) as real
         == r.meanLatencyMs * (r.successes + r.failures) as real + Milliseconds(o.latency) as real
  {
    hide Milliseconds;
    var before := r.successes + r.failures;
    DivideThenMultiply(r.meanLatencyMs * before as real + Milliseconds(o.latency) as real, before + 1);
  }

  lemma LogGrows(log: seq<Outcome>, o: Outcome)
    ensures Successes(log + [o]) == Successes(log) + if o.success then 1 else 0
    ensures TrailingFailures(log + [o]) == if o.success then 0 else TrailingFailures(log) + 1
    ensures LatencySum(log + [o]) == LatencySum(log) + Milliseconds(o.latency) as real
  {
    hide Milliseconds;
    assert (log + [o])[..|log|] == log;
  }

  lemma EvidenceStep(r: Reliability, base: Reliability, log: seq<Outcome>, o: Outcome)
    requires EvidenceOf(r, base, log)
    ensures EvidenceOf(WithOutcome(r, o), base, log + [o])
  {
    hide Milliseconds, Successes, TrailingFailures, LatencySum;
    RunningMean(r, o);
    LogGrows(log, o);
  }

  lemma FollowsEvidence(before: Agent, v: Entry)
    requires Follows(before, v)
    ensures v.agent.reliability ==
      if v.call.intent.Record? then WithOutcome(before.reliability, Recorded(v.call.intent.outcome, v.call.now)) else before.reliability
  {
    hide AgentReady, TransitionAllowed, Trim, NormalizeProfile, WithOutcome, Candidate, Recorded;
  }

  lemma {:induction false} EvidenceFolds(c: Checks, k: Key, h: seq<Entry>)
    requires GoodHistory(c, k, h)
    ensures h != [] && EvidenceOf(h[|h| - 1].agent.reliability, h[0].agent.reliability, OutcomesOf(h))
  {
    hide GoodHistory, Follows, WithOutcome, Recorded, EvidenceOf;
    NonEmptyHistory(c, k, h);
    var n := |h| - 1;
    if n == 0 {
      FirstCall(c, k, h);
      assert h[..0] == [] && OutcomesOf(h[..0]) == [];
      assert OutcomesOf(h) == [];
      NoEvidence(h[0].agent.reliability);
    } else {
      ShorterHistory(c, k, h);
      EvidenceFolds(c, k, h[..n]);
      FollowsEvidence(h[n - 1].agent, h[n]);
      assert h[..n][0] == h[0] && h[..n][n - 1] == h[n - 1];
      var log := OutcomesOf(h[..n]);
      assert log + [] == log;
      if h[n].call.intent.Record? {
        EvidenceStep(h[n - 1].agent.reliability, h[0].agent.reliability, OutcomesOf(h[..n]), Recorded(h[n].call.intent.outcome, h[n].call.now));
      }
    }
  }

  lemma NoEvidence(r: Reliability)
    ensures EvidenceOf(r, r, [])
  {}

  /** Reliability is the fold of the committed outcomes, one per finished assignment. */
  lemma EvidenceIsFoldOfOutcomes(c: Checks, calls: seq<Call>, k: Key)
    requires k in RunCalls(c, calls).store.agents
    ensures var w := RunCalls(c, calls);
      && k in w.history && w.history[k] != []
      && EvidenceOf(w.store.agents[k].reliability, w.history[k][0].agent.reliability, OutcomesOf(w.history[k]))
      && |OutcomesOf(w.history[k])| == |FinishedBy(w.store, k)|
  {
    hide GoodHistory, LedgersMatch, WellFormed, EvidenceOf, OutcomesOf;
    RunKeepsInvariant(c, calls);
    EvidenceFolds(c, k, RunCalls(c, calls).history[k]);
  }

  lemma MeanStaysNonNegative(m: real, n: nat, x: real)
    requires m >= 0.0 && x >= 0.0
    ensures (m * n as real + x) / (n + 1) as real >= 0.0
  {
    assert m * n as real >= 0.0;
  }

  lemma WithOutcomeStaysValid(r: Reliability, o: Outcome)
    requires r.meanLatencyMs >= 0.0 && r.consecutiveFailures <= r.failures && o.latency >= 0
    ensures WithOutcome(r, o).meanLatencyMs >= 0.0 && WithOutcome(r, o).consecutiveFailures <= WithOutcome(r, o).failures
  {
    MeanStaysNonNegative(r.meanLatencyMs, r.successes + r.failures, Milliseconds(o.latency) as real);
  }

  /** The final validation of an outcome can only object to the timestamps. */
  lemma OutcomeValidIffTimesAre(c: Checks, current: Agent, o: Outcome, now: int)
    requires SoundAgent(c, current) && current.availability.active > 0 && o.latency >= 0
    ensures ValidateAgent(c, Finished(current, o, now), now) <==>
      current.createdAt != UNSET_TIME && now != UNSET_TIME && current.createdAt <= now
  {
    hide ValidProfile, ValidIdentity, ValidIdentifier, ValidText, WithOutcome;
    WithOutcomeStaysValid(current.reliability, o);
  }

  lemma KeysAreTrimmed(c: Checks, k: Key, h: seq<Entry>)
    requires GoodHistory(c, k, h)
    ensures Trim(k.owner) == k.owner && Trim(k.id) == k.id
  {
    hide SoundAgent, Follows, Trim, NormalizeProfile;
    var input := h[0].call.intent.input;
    TrimIdempotent(input.owner);
    TrimIdempotent(input.id);
    assert KeyOf(h[0].agent) == k;
  }

  lemma SoundNames(c: Checks, a: Agent)
    requires SoundAgent(c, a)
    ensures ValidIdentity(c, a.owner) && ValidIdentifier(c, a.id)
  {
    hide ValidProfile, ValidText, ValidIdentity, ValidIdentifier;
  }

  /** An assignment that is still open takes its outcome if and only if the caller
      knows the agent's revision, the latency is not negative, the outcome is not
      from the future, and the clock has not fallen behind the agent's creation. */
  lemma OpenOutcomeAcceptedIff(c: Checks, calls: seq<Call>, ak: AssignmentKey, expected: nat, o: Outcome, now: int)
    requires var s := RunCalls(c, calls).store; ak in s.assignments && ak !in s.outcomes
    ensures var s := RunCalls(c, calls).store;
      var k := AgentKey(s.assignments[ak]);
      var call := Call(Record(ak.owner, ak.id, expected, o), now, now, None);
      && k in s.agents
      && (Exec(c, s, call).1.Saved? <==>
            && s.agents[k].revision == expected && o.latency >= 0 && Recorded(o, now).recordedAt <= now + MINUTE
            && s.agents[k].createdAt != UNSET_TIME && now != UNSET_TIME && s.agents[k].createdAt <= now)
  {
    hide *;
    OpenAssignmentHasSlot(c, calls, ak);
    RunKeepsInvariant(c, calls);
    var w := RunCalls(c, calls);
    var k := AgentKey(w.store.assignments[ak]);
    InvariantParts(c, w, k);
    KeysAreTrimmed(c, k, w.history[k]);
    OutcomeAcceptedIff(c, w.store, ak, k, expected, o, now);
  }

  lemma InvariantParts(c: Checks, w: World, k: Key)
    requires Invariant(c, w) && k in w.store.agents
    ensures WellFormed(c, w.store) && k in w.history && GoodHistory(c, k, w.history[k])
  {
    hide WellFormed, LedgersMatch, Counted, GoodHistory;
  }

  lemma OutcomeAcceptedIff(c: Checks, s: Store, ak: AssignmentKey, k: Key, expected: nat, o: Outcome, now: int)
    requires WellFormed(c, s) && ak in s.assignments && ak !in s.outcomes && k == AgentKey(s.assignments[ak]) && k in s.agents
    requires Trim(k.owner) == k.owner && Trim(k.id) == k.id && s.agents[k].availability.active > 0
    ensures var call := Call(Record(ak.owner, ak.id, expected, o), now, now, None);
      Exec(c, s, call).1.Saved? <==>
        && s.agents[k].revision == expected && o.latency >= 0 && Recorded(o, now).recordedAt <= now + MINUTE
        && s.agents[k].createdAt != UNSET_TIME && now != UNSET_TIME && s.agents[k].createdAt <= now
  {
    hide SoundAgent, ValidateAgent, Trim, ValidIdentity, ValidIdentifier, WithOutcome;
    assert ak == AssignmentKey(s.assignments[ak].owner, s.assignments[ak].id);
    SoundNames(c, s.agents[k]);
    var recorded := Recorded(o, now);
    if o.latency >= 0 { OutcomeValidIffTimesAre(c, s.agents[k], recorded, now); }
  }
}
