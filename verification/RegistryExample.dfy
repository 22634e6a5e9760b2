/** Runs in which an assignment is not atomic: a request is missed, a reservation is
    refused although every store would have granted it, and a grant is overtaken. */
module RegistryExample {
  import opened Wrappers
  import opened RegistryTypes
  import opened RegistryStore
  import opened RegistryRules
  import opened RegistryService
  import opened RegistryHistory
  import opened RegistryClients
  import opened RegistryReplies
  import opened Sorting
  import Text

  const LAX := Checks((s: string) => false, (s: string) => false)

  const PROFILE := Profile("n", Planner, "r", "t", Version(1, 0, 0), [Capability("c", Version(1, 0, 0), [])], 0, 0, [], [], [])

  function Input(id: string, max: int): Agent {
    Agent(1, "o", id, PROFILE, Health(Healthy, true, "", 1, 10), LifecycleState.Registered, Availability(true, 0, max),
          Performance(0.0, 0, Local), Reliability(0, 0, 0, 0.0, 0), 1, 1, 1)
  }

  function Ready(id: string, max: int): Agent {
    Moved(Input(id, max), LifecycleState.Enabled, 1)
  }

  function Work(task: string): Request {
    Request("o", task, [CapabilityNeed("c", None, None, [])], "", "", None, None, 0, 0, 0, 0, [], [], [], [], None, false, false)
  }

  function Where(id: string): Key {
    Key("o", id)
  }

  /** The whole assignment of this work. */
  function Asked(task: string): Call {
    Call(Intent.Assign(Work(task)), 1, 1, None)
  }

  function Filed(task: string): AssignmentKey {
    AssignmentKey("o", Work(task))
  }

  // Everything here is valid

  predicate Letter(s: string) {
    |s| == 1 && 'a' <= s[0] <= 'z'
  }

  lemma Letters(s: string)
    requires Letter(s)
    ensures Text.Trim(s) == s && Text.Lower(s) == s
    ensures ValidIdentifier(LAX, s) && ValidIdentity(LAX, s) && ValidText(LAX, s, true)
  {
    assert Text.TrimLeft(s) == s;
    assert Text.TrimRight(s) == s;
  }

  lemma ProfileIsValid()
    ensures NormalizeProfile(PROFILE) == PROFILE
    ensures ValidProfile(LAX, PROFILE)
  {
    Letters("n"); Letters("r"); Letters("t"); Letters("c");
    var cs := PROFILE.capabilities;
    assert cs[1..] == [];
    assert Sort(cs, BY_CAPABILITY) == cs;
    assert NormalizeUnique([]) == [];
    assert NormalizeProfile(PROFILE).capabilities == cs;
  }

  lemma RegistrationIsValid(id: string, max: int)
    requires Letter(id) && 1 <= max <= 2
    ensures Registration(Input(id, max), 1) == Input(id, max) && ValidateAgent(LAX, Input(id, max), 1)
  {
    hide ValidProfile, NormalizeProfile;
    Letters("o"); Letters(id); Letters("n");
    ProfileIsValid();
  }

  lemma WorkIsValid(task: string)
    requires Letter(task)
    ensures ValidateRequest(LAX, Work(task))
  {
    Letters("o"); Letters(task); Letters("c");
  }

  /** Who is enabled takes work as long as there is a slot left. */
  lemma SlotsLeft(id: string, max: int, task: string)
    requires 1 <= max <= 2
    ensures Candidate(Ready(id, max), Work(task), 1)
    ensures Candidate(Reserved(Ready(id, max), 1), Work(task), 1) <==> max == 2
  {
    Letters("c");
    assert Declared(PROFILE.capabilities, "c") == Some(PROFILE.capabilities[0]);
  }

  // Steps of a run

  ghost predicate Reachable(s: System) {
    exists actions :: s == Run(LAX, INITIAL, actions)
  }

  lemma ReachableStep(s: System, a: Action)
    requires Reachable(s) && RegistryClients.Enabled(s, a)
    ensures Reachable(Step(LAX, s, a))
  {
    hide Step, RegistryClients.Enabled;
    var actions :| s == Run(LAX, INITIAL, actions);
    assert (actions + [a])[..|actions|] == actions;
    assert Step(LAX, s, a) == Run(LAX, INITIAL, actions + [a]);
  }

  lemma ReachedBy(s: System) returns (actions: seq<Action>)
    requires Reachable(s)
    ensures s == Run(LAX, INITIAL, actions)
  {
    hide Run;
    actions :| s == Run(LAX, INITIAL, actions);
  }

  lemma ReachableIsSound(s: System)
    requires Reachable(s)
    ensures WellFormed(LAX, s.store) && KeysMatch(s.store) && s.store == StoreAfter(LAX, s.log)
  {
    hide *;
    var actions := ReachedBy(s);
    InterleavedRunsAreAtomic(LAX, actions);
    StoreIsWellFormed(LAX, s.log);
    WellFormedKeys(LAX, s.store);
  }

  /** Only these clients have moved. */
  predicate Beside(s: System, t: System, ws: set<nat>) {
    && s.log <= t.log
    && (forall w :: w in s.clients && w !in ws ==> w in t.clients && t.clients[w] == s.clients[w])
    && (forall w :: w in s.began ==> w in t.began && t.began[w] == s.began[w])
    && t.clients.Keys == s.clients.Keys + ws
  }

  lemma Registers(s: System, id: string, max: int, who: nat) returns (t: System)
    requires Reachable(s) && Letter(id) && 1 <= max <= 2 && Where(id) !in s.store.agents && who !in s.clients && who !in s.began
    ensures Reachable(t) && t.store == s.store.(agents := s.store.agents[Where(id) := Input(id, max)])
    ensures Beside(s, t, {who}) && t.clients.Keys == s.clients.Keys + {who} && t.began.Keys == s.began.Keys + {who}
  {
    hide ValidateAgent, Registration;
    RegistrationIsValid(id, max);
    var begin := Begin(who, Call(Intent.Register(Input(id, max)), 1, 1, None));
    ReachableStep(s, begin);
    var u := Step(LAX, s, begin);
    ReachableStep(u, Read(who));
    t := Step(LAX, u, Read(who));
  }

  lemma EnablingIsPrepared(s: Store, id: string, max: int)
    requires Letter(id) && 1 <= max <= 2 && Where(id) in s.agents && s.agents[Where(id)] == Input(id, max)
    ensures ServiceGet(LAX, s, "o", id) == Ok(Input(id, max))
    ensures PrepareTransit(LAX, Input(id, max), 1, LifecycleState.Enabled, "n", 1, 1)
      == Ok(EnablingMove(id, max))
  {
    Letters("o"); Letters(id); Letters("n");
  }

  function Enabling(id: string): Call {
    Call(Intent.Transit("o", id, 1, LifecycleState.Enabled, "n"), 1, 1, None)
  }

  function EnablingMove(id: string, max: int): Commit {
    Move(Ready(id, max), MoveEvent(Input(id, max), LifecycleState.Enabled, "n", 1))
  }

  lemma StartsEnabling(s: System, id: string, max: int, who: nat) returns (t: System)
    requires Reachable(s) && Letter(id) && 1 <= max <= 2 && who !in s.clients && who !in s.began
    requires Where(id) in s.store.agents && s.store.agents[Where(id)] == Input(id, max)
    ensures Reachable(t)
    ensures t == s.(clients := s.clients[who := ToCommit(Enabling(id), Input(id, max), EnablingMove(id, max))],
                    began := s.began[who := Begun(Enabling(id), |s.log|)])
  {
    hide PrepareTransit, ServiceGet, MoveEvent;
    EnablingIsPrepared(s.store, id, max);
    var begin := Begin(who, Enabling(id));
    ReachableStep(s, begin);
    var u := Step(LAX, s, begin);
    ReachableStep(u, Read(who));
    t := Step(LAX, u, Read(who));
  }

  lemma Enables(s: System, id: string, max: int, who: nat) returns (t: System)
    requires Reachable(s) && Letter(id) && 1 <= max <= 2 && who !in s.clients && who !in s.began
    requires Where(id) in s.store.agents && s.store.agents[Where(id)] == Input(id, max)
    ensures Reachable(t) && t.store.agents == s.store.agents[Where(id) := Ready(id, max)] && t.store.assignments == s.store.assignments
    ensures Beside(s, t, {who}) && t.clients.Keys == s.clients.Keys + {who} && t.began.Keys == s.began.Keys + {who}
  {
    hide MoveEvent, CommitIn, Run;
    var u := StartsEnabling(s, id, max, who);
    MoveCommits(u.store, id, max);
    ReachableStep(u, Perform(who));
    t := Step(LAX, u, Perform(who));
  }

  lemma MoveCommits(s: Store, id: string, max: int)
    requires Where(id) in s.agents && s.agents[Where(id)] == Input(id, max)
    ensures var (t, r) := CommitIn(s, EnablingMove(id, max), 1);
      t.agents == s.agents[Where(id) := Ready(id, max)] && t.assignments == s.assignments
  {
    hide Text.Trim;
  }

  lemma AddsAgent(s: System, id: string, max: int, v: nat, w: nat) returns (t: System)
    requires Reachable(s) && Letter(id) && 1 <= max <= 2 && Where(id) !in s.store.agents
    requires v != w && v !in s.clients && w !in s.clients && v !in s.began && w !in s.began
    ensures Reachable(t) && t.store.agents == s.store.agents[Where(id) := Ready(id, max)] && t.store.assignments == s.store.assignments
    ensures Beside(s, t, {v, w}) && t.began.Keys == s.began.Keys + {v, w}
  {
    hide *;
    var u := Registers(s, id, max, v);
    t := Enables(u, id, max, w);
    BesideTransitive(s, u, t, v, w);
  }

  lemma BesideTransitive(s: System, u: System, t: System, v: nat, w: nat)
    requires Beside(s, u, {v}) && Beside(u, t, {w})
    ensures Beside(s, t, {v, w})
  {}

  lemma OneAgent(id: string, max: int) returns (s: System)
    requires Letter(id) && 1 <= max <= 2
    ensures Reachable(s) && s.store.agents == map[Where(id) := Ready(id, max)] && s.store.assignments == map[]
    ensures s.clients.Keys == {0, 1} && s.began.Keys == {0, 1}
  {
    hide Step;
    assert Run(LAX, INITIAL, []) == INITIAL;
    s := AddsAgent(INITIAL, id, max, 0, 1);
  }

  /** The client begins its request and finds no assignment. */
  lemma Looks(s: System, who: nat, task: string) returns (t: System)
    requires Reachable(s) && Letter(task) && who !in s.clients && who !in s.began && Filed(task) !in s.store.assignments
    ensures Reachable(t)
    ensures t == s.(clients := s.clients[who := ToList(Asked(task))], began := s.began[who := Begun(Asked(task), |s.log|)])
  {
    hide ValidateRequest;
    WorkIsValid(task);
    var begin := Begin(who, Asked(task));
    ReachableStep(s, begin);
    var u := Step(LAX, s, begin);
    ReachableStep(u, Read(who));
    t := Step(LAX, u, Read(who));
  }

  /** The client lists the agents and picks the best. */
  lemma Picks(s: System, who: nat, task: string, id: string, max: int) returns (t: System)
    requires Reachable(s) && who in s.clients && s.clients[who] == ToList(Asked(task))
    requires BestChoice(s.store, Work(task), 1, Choice(id, 2)) && s.store.agents[Where(id)] == Ready(id, max)
    ensures Reachable(t) && t == s.(clients := s.clients[who := ToReserve(Asked(task), Ready(id, max))])
  {
    hide BestChoice, Run, WellFormed, StoreAfter;
    ReachableIsSound(s);
    BestIsPicked(s.store, Work(task), 1, Choice(id, 2));
    ReachableStep(s, List(who));
    t := Step(LAX, s, List(who));
  }

  /** The client reserves what it has picked, which nobody has touched. */
  lemma Reserves(s: System, who: nat, task: string, id: string, max: int) returns (t: System)
    requires Reachable(s) && 1 <= max <= 2 && who in s.clients && s.clients[who] == ToReserve(Asked(task), Ready(id, max))
    requires Where(id) in s.store.agents && s.store.agents[Where(id)] == Ready(id, max) && Filed(task) !in s.store.assignments
    ensures Reachable(t) && t.began == s.began
    ensures t.store.agents == s.store.agents[Where(id) := Reserved(Ready(id, max), 1)]
    ensures var a := NewAssignment(Work(task), Ready(id, max), 1);
      && t.store.assignments == s.store.assignments[Filed(task) := a]
      && t.clients == s.clients[who := Returned(Granted(a))]
      && t.log == s.log + [Logged(who, Reserving(Asked(task), Ready(id, max)), Granted(a))]
  {
    hide Components, Score, Run;
    ReachableStep(s, Perform(who));
    t := Step(LAX, s, Perform(who));
  }

  lemma OnlyAgentIsBest(s: Store, id: string, max: int, task: string)
    requires 1 <= max <= 2 && s.agents == map[Where(id) := Ready(id, max)]
    ensures BestChoice(s, Work(task), 1, Choice(id, 2)) && !NobodyEligible(s, Work(task), 1)
  {
    hide Score;
    SlotsLeft(id, max, task);
    assert Where(id) in s.agents;
    Text.LexTotal(id, id);
  }

  // The race for the last slot

  /** Two clients ask for the same work, one is granted it, and the other is told that
      nobody is eligible, although at every instant of its call somebody was eligible
      or the work was already granted. */
  ghost predicate Missed(s: System, v: nat, w: nat, task: string) {
    && Reachable(s) && v in s.clients && v in s.began && s.began[v].call == Asked(task)
    && s.clients[v].Returned? && s.clients[v].reply.Granted?
    && w in s.clients && w in s.began && s.began[w].call == Asked(task)
    && s.clients[w] == Returned(Failed(NoEligibleAgent))
    && w in s.missed
  }

  lemma SlotIsTaken() returns (s: System, t: System)
    ensures Reachable(s) && s.store.agents == map[Where("a") := Ready("a", 1)]
    ensures Reachable(t) && t.store.agents == map[Where("a") := Reserved(Ready("a", 1), 1)] && Filed("k") in t.store.assignments
    ensures IsAt(t, 2, Returned(Granted(NewAssignment(Work("k"), Ready("a", 1), 1)))) && IsAt(t, 3, ToList(Asked("k")))
    ensures 2 in t.began && t.began[2].call == Asked("k") && 3 in t.began && t.began[3] == Begun(Asked("k"), |s.log|)
    ensures |t.log| == |s.log| + 1 && s.log <= t.log
  {
    hide Step, Run, Reachable, BestChoice, NobodyEligible, NewAssignment;
    s := OneAgent("a", 1);
    OnlyAgentIsBest(s.store, "a", 1, "k");
    var s2 := Looks(s, 2, "k");
    var s3 := Looks(s2, 3, "k");
    var p := Picks(s3, 2, "k", "a", 1);
    t := Reserves(p, 2, "k", "a", 1);
  }

  lemma RequestCanBeMissed()
    ensures exists s: System, v: nat, w: nat, task: string :: Missed(s, v, w, task)
  {
    hide NewAssignment, Candidate, Step, Run, Reachable, NobodyThen, NobodyEligible, Reserved, Ready;
    var s, t := SlotIsTaken();
    var actions := ReachedBy(t);
    NobodyLeft(t);
    forall at: nat | |s.log| <= at <= |t.log| ensures !NobodyThen(LAX, t.log, at, Work("k"), 1) { NeverNobody(s, t, at); }
    ListingAnswerIsAtomicIff(LAX, actions, 3);
    ReachableStep(t, List(3));
    ListingKeepsOthers(t);
    assert Missed(Step(LAX, t, List(3)), 2, 3, "k");
  }

  lemma NobodyLeft(s: System)
    requires s.store.agents == map[Where("a") := Reserved(Ready("a", 1), 1)]
    ensures NobodyEligible(s.store, Work("k"), 1)
  {
    hide Candidate;
    SlotsLeft("a", 1, "k");
  }

  /** Between its beginning and its listing, either somebody was eligible or the
      request was assigned. */
  lemma NeverNobody(s: System, t: System, at: nat)
    requires Reachable(s) && s.store.agents == map[Where("a") := Ready("a", 1)]
    requires Reachable(t) && Filed("k") in t.store.assignments
    requires |t.log| == |s.log| + 1 && s.log <= t.log && |s.log| <= at <= |t.log|
    ensures !NobodyThen(LAX, t.log, at, Work("k"), 1)
  {
    hide StoreAfter, NobodyEligible, BestChoice, Reachable, WellFormed;
    ReachableIsSound(s);
    ReachableIsSound(t);
    OnlyAgentIsBest(s.store, "a", 1, "k");
    assert t.log[..|t.log|] == t.log && t.log[..|s.log|] == s.log;
  }

  lemma ListingKeepsOthers(t: System)
    requires 3 in t.clients && t.clients[3] == ToList(Asked("k")) && 2 in t.clients
    requires NobodyEligible(t.store, Work("k"), 1) && Filed("k") in t.store.assignments
    ensures var u := Step(LAX, t, List(3));
      u.clients.Keys == t.clients.Keys && u.clients[2] == t.clients[2] && u.began == t.began
  {
    hide NobodyEligible, RightBefore, BestPick;
    BestPickIff(t.store, Work("k"), 1);
  }

  // The race for an agent with room for both

  /** Told that there was a conflict, although at every instant of the call the
      whole assignment would have been granted. */
  ghost predicate Refused(s: System, w: nat, task: string) {
    && Reachable(s) && w in s.clients && w in s.began && s.began[w].call == Asked(task)
    && s.clients[w] == Returned(Failed(RevisionConflict))
    && w in s.missed && w in s.ended && s.ended[w] <= |s.log|
    && forall at :: s.began[w].at <= at <= s.ended[w] ==> GrantableAt(s, at, task)
  }

  ghost predicate GrantableAt(s: System, at: nat, task: string)
    requires at <= |s.log|
  {
    Exec(LAX, StoreAfter(LAX, s.log[..at]), Asked(task)).1.Granted?
  }

  lemma AgentIsChanged() returns (s: System, t: System)
    ensures Reachable(s) && s.store.agents == map[Where("a") := Ready("a", 2)] && Filed("l") !in s.store.assignments
    ensures Reachable(t) && t.store.agents == map[Where("a") := Reserved(Ready("a", 2), 1)] && Filed("l") !in t.store.assignments
    ensures IsAt(t, 3, ToReserve(Asked("l"), Ready("a", 2))) && 3 in t.began && t.began[3] == Begun(Asked("l"), |s.log|)
    ensures |t.log| == |s.log| + 1 && s.log <= t.log
  {
    hide Step, Run, Reachable, BestChoice, NobodyEligible, NewAssignment;
    s := OneAgent("a", 2);
    OnlyAgentIsBest(s.store, "a", 2, "k");
    OnlyAgentIsBest(s.store, "a", 2, "l");
    var s2 := Looks(s, 2, "k");
    var s3 := Looks(s2, 3, "l");
    var p2 := Picks(s3, 2, "k", "a", 2);
    var p3 := Picks(p2, 3, "l", "a", 2);
    t := Reserves(p3, 2, "k", "a", 2);
    assert "k" != "l";
  }

  lemma ReservationCanBeRefused()
    ensures exists s: System, w: nat, task: string :: Refused(s, w, task)
  {
    hide Run, Reachable, GrantableAt, Ready, Reserved;
    var s, t := AgentIsChanged();
    var u := IsRefused(t);
    forall at: nat | |s.log| <= at <= |t.log| ensures GrantableAt(u, at, "l") { AlwaysGrantable(s, t, u, at); }
    assert Refused(u, 3, "l");
  }

  lemma IsRefused(t: System) returns (u: System)
    requires Reachable(t) && t.store.agents == map[Where("a") := Reserved(Ready("a", 2), 1)] && Filed("l") !in t.store.assignments
    requires 3 in t.clients && t.clients[3] == ToReserve(Asked("l"), Ready("a", 2)) && 3 in t.began
    ensures Reachable(u) && u.log == t.log && u.began == t.began && IsAt(u, 3, Returned(Failed(RevisionConflict)))
    ensures 3 in u.missed && 3 in u.ended && u.ended[3] == |t.log|
  {
    hide Components, Score, Run, RightBefore;
    ConflictIsNeverRight(LAX, t, 3, Asked("l"));
    ReachableStep(t, Perform(3));
    u := Step(LAX, t, Perform(3));
  }

  lemma AlwaysGrantable(s: System, t: System, u: System, at: nat)
    requires Reachable(s) && s.store.agents == map[Where("a") := Ready("a", 2)] && Filed("l") !in s.store.assignments
    requires Reachable(t) && t.store.agents == map[Where("a") := Reserved(Ready("a", 2), 1)] && Filed("l") !in t.store.assignments
    requires |t.log| == |s.log| + 1 && s.log <= t.log && |s.log| <= at <= |t.log| && u.log == t.log
    ensures GrantableAt(u, at, "l")
  {
    hide StoreAfter, Reachable, WellFormed, Candidate, Exec;
    ReachableIsSound(s);
    ReachableIsSound(t);
    SlotsLeft("a", 2, "l");
    assert t.log[..|t.log|] == t.log && t.log[..|s.log|] == s.log;
    IsGrantable(StoreAfter(LAX, t.log[..at]), "l");
  }

  lemma IsGrantable(s: Store, task: string)
    requires Letter(task) && Where("a") in s.agents && Candidate(s.agents[Where("a")], Work(task), 1) && Filed(task) !in s.assignments
    ensures Exec(LAX, s, Asked(task)).1.Granted?
  {
    hide ValidateRequest, Candidate, BestPick, NewAssignment;
    WorkIsValid(task);
    BestPickIff(s, Work(task), 1);
  }

  // A better agent after the listing

  /** The grant is not what the whole assignment would do at its instant. */
  ghost predicate Overtaken(s: System, i: nat) {
    && Reachable(s) && i < |s.log| && Fresh(LAX, s.log, i)
    && Exec(LAX, StoreAfter(LAX, s.log[..i]), s.log[i].call.(choice := None)) != (StoreAfter(LAX, s.log[..i + 1]), s.log[i].reply)
  }

  lemma GrantCanBeOvertaken()
    ensures exists s: System, i: nat :: Overtaken(s, i)
  {
    hide NewAssignment, Candidate, Step, Run, Reachable, BestChoice, StoreAfter, Exec, WellFormed, Score;
    var s := OneAgent("b", 1);
    OnlyAgentIsBest(s.store, "b", 1, "k");
    var s2 := Looks(s, 2, "k");
    var p := Picks(s2, 2, "k", "b", 1);
    var q := AddsAgent(p, "a", 1, 4, 5);
    var t := Reserves(q, 2, "k", "b", 1);
    ReachableIsSound(q);
    var i := |q.log|;
    assert t.log[..i] == q.log;
    EarlierNameIsBetter(q.store);
    NewAssignmentKey(Work("k"), Ready("b", 1), 1);
    var actions := ReachedBy(t);
    GrantIsWholeIff(LAX, actions, i);
    assert Overtaken(t, i);
  }

  lemma EarlierNameIsBetter(s: Store)
    requires s.agents == map[Where("b") := Ready("b", 1), Where("a") := Ready("a", 1)]
    ensures !BestChoice(s, Work("k"), 1, Choice("b", 2))
  {
    hide Candidate;
    SlotsLeft("a", 1, "k");
    assert Where("a") in s.agents;
    assert Components(Ready("a", 1), Work("k")) == Components(Ready("b", 1), Work("k"));
  }
}
