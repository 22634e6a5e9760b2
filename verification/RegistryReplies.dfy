/** What the clients are told. Every reply is that of the client's own whole command
    at an instant of its call, except those of the clients that are counted as missed.
    Answers that fit the place of their instant are logged there, in an order that
    respects calls which do not overlap. */
module RegistryReplies {
  import opened Wrappers
  import opened RegistryTypes
  import opened RegistryStore
  import opened RegistryRules
  import opened RegistryService
  import opened RegistryHistory
  import opened RegistryClients
  import RegistryMeaning

  // Whose replies these are, and when their instants were

  function CallOf(pc: Pc): Option<Call> {
    if pc.Returned? then None else Some(pc.call)
  }

  predicate NotLogged(log: seq<Logged>, who: nat) {
    forall i :: 0 <= i < |log| ==> log[i].who != who
  }

  /** At work on what it began, and not answered in any way. */
  predicate Busy(s: System, who: nat) {
    && who in s.clients && who in s.began && CallOf(s.clients[who]) == Some(s.began[who].call)
    && s.began[who].at <= |s.log| && NotLogged(s.log, who)
    && who !in s.ended && who !in s.late && who !in s.missed
  }

  /** The entry is the client's own command, answered as the client was, at an
      instant between its beginning and its return. */
  predicate AnsweredAt(s: System, who: nat, reply: Reply, i: int)
    requires who in s.began && who in s.ended
  {
    && 0 <= i < |s.log| && s.log[i].who == who && s.log[i].reply == reply && s.log[i].call.(choice := None) == s.began[who].call
    && s.began[who].at <= i < s.ended[who]
  }

  /** Told earlier than it returned: at that instant of its call it was right. */
  ghost predicate AnsweredLate(c: Checks, s: System, who: nat, reply: Reply)
    requires who in s.began && who in s.ended && s.ended[who] <= |s.log| && who in s.late
  {
    s.began[who].at <= s.late[who] <= s.ended[who] && RightAt(c, s.log, s.late[who], s.began[who].call, reply)
  }

  /** Told what was right at no instant of its call: that nobody is eligible, by when
      the request has an assignment, or that the listed agent has changed. */
  ghost predicate AnsweredWrong(c: Checks, s: System, who: nat, reply: Reply)
    requires who in s.began && who in s.ended && s.ended[who] <= |s.log| && who in s.missed
  {
    var call := s.began[who].call;
    && call.intent.Assign? && call.choice == None
    && (reply == Failed(RevisionConflict)
        || (reply == Failed(NoEligibleAgent) && AssignmentKey(call.intent.request.owner, call.intent.request) in s.store.assignments))
    && forall at :: s.began[who].at <= at <= s.ended[who] ==> !RightAt(c, s.log, at, call, reply)
  }

  ghost predicate Closed(c: Checks, s: System, who: nat) {
    && who in s.clients && s.clients[who].Returned? && who in s.began && who in s.ended
    && s.began[who].at <= s.ended[who] <= |s.log|
    && var reply := s.clients[who].reply;
       if who in s.late then
         NotLogged(s.log, who) && who !in s.missed && reply == Failed(NoEligibleAgent) && AnsweredLate(c, s, who, reply)
       else if who in s.missed then
         NotLogged(s.log, who) && AnsweredWrong(c, s, who, reply)
       else exists i :: AnsweredAt(s, who, reply, i)
  }

  ghost predicate Status(c: Checks, s: System, who: nat) {
    who in s.clients && if s.clients[who].Returned? then Closed(c, s, who) else Busy(s, who)
  }

  /** Every client is at work on its own command or answered for it, once. */
  ghost predicate Owned(c: Checks, s: System) {
    && s.clients.Keys == s.began.Keys
    && (forall who :: who in s.clients ==> Status(c, s, who))
    && (forall i :: 0 <= i < |s.log| ==> s.log[i].who in s.clients)
    && (forall i, j :: 0 <= i < j < |s.log| ==> s.log[i].who != s.log[j].who)
  }

  /** Only this client's records change, and at most one entry is logged, its own. */
  ghost predicate Touches(s: System, t: System, who: nat) {
    && (t.log == s.log || exists call, reply :: t.log == s.log + [Logged(who, call, reply)])
    && t.clients.Keys == s.clients.Keys + {who} && t.began.Keys == s.began.Keys + {who}
    && (who in s.began ==> t.began[who] == s.began[who])
    && (who !in s.began ==> t.began[who].at == |s.log|)
    && (forall w :: w in s.clients && w != who ==> t.clients[w] == s.clients[w])
    && (forall w :: w in s.began && w != who ==> t.began[w] == s.began[w])
    && (forall w :: w != who ==> (w in t.ended <==> w in s.ended) && (w in t.late <==> w in s.late) && (w in t.missed <==> w in s.missed))
    && (forall w :: w != who && w in s.ended ==> t.ended[w] == s.ended[w])
    && (forall w :: w != who && w in s.late ==> t.late[w] == s.late[w])
  }

  lemma NotLoggedMore(s: System, t: System, who: nat, w: nat)
    requires Touches(s, t, who) && w != who && NotLogged(s.log, w)
    ensures NotLogged(t.log, w)
  {}

  lemma RightAtStays(c: Checks, s: System, t: System, who: nat, at: nat, call: Call, reply: Reply)
    requires Touches(s, t, who) && at <= |s.log|
    ensures at <= |t.log| && (RightAt(c, t.log, at, call, reply) <==> RightAt(c, s.log, at, call, reply))
  {
    hide Exec, StoreAfter;
    assert t.log[..at] == s.log[..at];
  }

  lemma OthersKept(c: Checks, s: System, t: System, who: nat, w: nat)
    requires Touches(s, t, who) && Grows(s.store, t.store) && w != who && w in s.clients && w in s.began && Status(c, s, w)
    ensures Status(c, t, w)
  {
    hide NotLogged, RightAt, Newer, CallOf;
    if NotLogged(s.log, w) { NotLoggedMore(s, t, who, w); }
    if s.clients[w].Returned? {
      forall at: nat, call, reply | at <= |s.log| ensures RightAt(c, t.log, at, call, reply) <==> RightAt(c, s.log, at, call, reply) {
        RightAtStays(c, s, t, who, at, call, reply);
      }
      if w !in s.late && w !in s.missed {
        var i :| AnsweredAt(s, w, s.clients[w].reply, i);
        assert AnsweredAt(t, w, t.clients[w].reply, i);
      }
    }
  }

  lemma OwnedStep(c: Checks, s: System, t: System, who: nat)
    requires Owned(c, s) && Touches(s, t, who) && Grows(s.store, t.store) && Status(c, t, who)
    requires who !in s.clients || Busy(s, who)
    ensures Owned(c, t)
  {
    hide Status, Grows;
    forall w | w in t.clients ensures Status(c, t, w) {
      if w != who { OthersKept(c, s, t, who, w); }
    }
    LogStaysDistinct(s, t, who);
  }

  lemma LogStaysDistinct(s: System, t: System, who: nat)
    requires Touches(s, t, who) && (who in s.clients ==> NotLogged(s.log, who))
    requires forall i :: 0 <= i < |s.log| ==> s.log[i].who in s.clients
    requires forall i, j :: 0 <= i < j < |s.log| ==> s.log[i].who != s.log[j].who
    ensures forall i :: 0 <= i < |t.log| ==> t.log[i].who in t.clients
    ensures forall i, j :: 0 <= i < j < |t.log| ==> t.log[i].who != t.log[j].who
  {}

  lemma AtIsBusy(c: Checks, s: System, who: nat, pc: Pc)
    requires Busy(s, who) && CallOf(pc) == Some(s.began[who].call)
    ensures Touches(s, At(s, who, pc), who) && Status(c, At(s, who, pc), who)
  {}

  lemma ReturnIsClosed(c: Checks, s: System, who: nat, store: Store, call: Call, reply: Reply)
    requires Busy(s, who) && call.(choice := None) == s.began[who].call
    ensures Touches(s, Return(s, who, store, call, reply), who) && Status(c, Return(s, who, store, call, reply), who)
  {
    hide CallOf, NotLogged;
    var t := Return(s, who, store, call, reply);
    assert t.log == s.log + [Logged(who, call, reply)];
    assert AnsweredAt(t, who, reply, |s.log|);
  }

  /** A whole assignment answers a conflict in no store. */
  lemma WholeNeverConflicts(c: Checks, s: Store, call: Call)
    requires call.intent.Assign? && call.choice == None
    ensures Exec(c, s, call).1 != Failed(RevisionConflict)
  {
    hide ValidateRequest, BestPick, NewAssignment;
  }

  lemma ConflictIsNeverRight(c: Checks, s: System, who: nat, call: Call)
    requires call.intent.Assign? && call.choice == None
    ensures !RightBefore(c, s, who, call, Failed(RevisionConflict))
  {
    hide Exec, StoreAfter;
    forall at: nat | Spans(s, who, at) ensures !RightAt(c, s.log, at, call, Failed(RevisionConflict)) {
      WholeNeverConflicts(c, StoreAfter(c, s.log[..at]), call);
    }
  }

  lemma TellIsClosed(c: Checks, s: System, who: nat, call: Call, reply: Reply)
    requires Busy(s, who) && call == s.began[who].call && call.intent.Assign? && call.choice == None
    requires reply == Failed(RevisionConflict)
      || (reply == Failed(NoEligibleAgent) && AssignmentKey(call.intent.request.owner, call.intent.request) in s.store.assignments)
    ensures Touches(s, Tell(c, s, who, call, reply), who) && Status(c, Tell(c, s, who, call, reply), who)
    ensures who in Tell(c, s, who, call, reply).missed <==> !RightBefore(c, s, who, call, reply)
  {
    hide CallOf, NotLogged, RightAt;
    if reply == Failed(RevisionConflict) { ConflictIsNeverRight(c, s, who, call); }
    var t := Tell(c, s, who, call, reply);
    if !RightBefore(c, s, who, call, reply) {
      forall at | s.began[who].at <= at <= |s.log| ensures !RightAt(c, t.log, at, call, reply) {
        assert Spans(s, who, at);
      }
    }
  }

  lemma FromAgentIsOwned(c: Checks, s: System, who: nat, call: Call, found: Result<Agent, Error>)
    requires !call.intent.Register? && !call.intent.Assign? && Busy(s, who) && call == s.began[who].call && call.choice == None
    ensures Touches(s, FromAgent(c, s, who, call, found), who) && Status(c, FromAgent(c, s, who, call, found), who)
  {
    hide PrepareOn, Touches, Status, Busy, Return, At;
    match found
    case Err(e) => ReturnIsClosed(c, s, who, s.store, call, Failed(e));
    case Ok(current) =>
      match PrepareOn(c, s.store, current, call)
      case Err(e) => ReturnIsClosed(c, s, who, s.store, call, Failed(e));
      case Ok(commit) => AtIsBusy(c, s, who, ToCommit(call, current, commit));
  }

  lemma FirstReadIsOwned(c: Checks, s: System, who: nat, call: Call)
    requires Busy(s, who) && call == s.began[who].call && call.choice == None
    ensures Touches(s, FirstRead(c, s, who, call), who) && Status(c, FirstRead(c, s, who, call), who)
  {
    hide PrepareOn, ValidateRequest, RegisterIn, ServiceGet, ServiceGetAssignment, FromAgent, AssignmentIn, Touches, Status, Busy, Return, At;
    match call.intent {
      case Register(input) =>
        var (t, reply) := RegisterIn(c, s.store, input, call.now);
        ReturnIsClosed(c, s, who, t, call, reply);
      case Update(owner, replacement, _) => FromAgentIsOwned(c, s, who, call, ServiceGet(c, s.store, owner, replacement.id));
      case Transit(owner, id, _, _, _) => FromAgentIsOwned(c, s, who, call, ServiceGet(c, s.store, owner, id));
      case Record(owner, assignment, _, _) =>
        match ServiceGetAssignment(c, s.store, owner, assignment) {
          case Err(e) => ReturnIsClosed(c, s, who, s.store, call, Failed(e));
          case Ok(a) => AtIsBusy(c, s, who, ToRead(call, a));
        }
      case Assign(r) =>
        if !ValidateRequest(c, r) {
          ReturnIsClosed(c, s, who, s.store, call, Failed(InvalidInput));
        } else {
          match AssignmentIn(s.store, r.owner, r) {
            case Ok(a) => ReturnIsClosed(c, s, who, s.store, call, Granted(a));
            case Err(_) => AtIsBusy(c, s, who, ToList(call));
          }
        }
    }
  }

  lemma ListIsOwned(c: Checks, s: System, who: nat)
    requires RegistryClients.Enabled(s, List(who)) && Busy(s, who) && s.clients[who].call.choice == None
    ensures var t := Step(c, s, List(who)); Touches(s, t, who) && Status(c, t, who)
  {
    hide Touches, Status, Return, At, BestPick, BestChoice, Tell, NotLogged;
    var call := s.clients[who].call;
    var r := call.intent.request;
    var pick := BestPick(s.store, r, call.now);
    if pick == None {
      if AssignmentKey(r.owner, r) in s.store.assignments {
        TellIsClosed(c, s, who, call, Failed(NoEligibleAgent));
      } else {
        ReturnIsClosed(c, s, who, s.store, call, Failed(NoEligibleAgent));
      }
    } else {
      BestIsStored(s.store, r, call.now, pick.value);
      AtIsBusy(c, s, who, ToReserve(call, s.store.agents[Key(r.owner, pick.value.id)]));
    }
  }

  lemma BestIsStored(s: Store, r: Request, now: int, pick: Choice)
    requires BestChoice(s, r, now, pick)
    ensures Key(r.owner, pick.id) in s.agents
  {
    hide Candidate, Beats;
  }

  /** A reservation is refused in two ways only: the request has an assignment by
      now, or the listed agent has another revision. */
  lemma ReservationAnswers(c: Checks, s: Store, call: Call, base: Agent)
    requires WellFormed(c, s) && Knows(c, s, ToReserve(call, base)) && base.availability.max != 0
    ensures var r := AssignIn(s, NewAssignment(call.intent.request, base, call.now)).1;
      var ak := AssignmentKey(call.intent.request.owner, call.intent.request);
      && (r.Ok? <==> ak !in s.assignments && s.agents[KeyOf(base)] == base)
      && (r == Err(AssignmentExists) <==> ak in s.assignments)
      && (r == Err(RevisionConflict) <==> ak !in s.assignments && s.agents[KeyOf(base)].revision != base.revision)
  {
    hide SoundAgent, ValidateRequest, Candidate, Components, Score;
    CandidateHasRoom(base, call.intent.request, call.now);
  }

  lemma PerformIsOwned(c: Checks, s: System, who: nat)
    requires WellFormed(c, s.store) && RegistryClients.Enabled(s, Perform(who)) && Busy(s, who) && Knows(c, s.store, s.clients[who])
    ensures var t := Step(c, s, Perform(who)); Touches(s, t, who) && Status(c, t, who)
  {
    hide WellFormed, ValidateRequest, Candidate, PrepareOn, ReadIn, Touches, Status, Return, At, Tell, CommitIn, AssignIn, NewAssignment, NotLogged;
    match s.clients[who] {
      case ToCommit(call, base, commit) =>
        var (t, r) := CommitIn(s.store, commit, Expected(call.intent));
        ReturnIsClosed(c, s, who, t, call, AgentReply(r));
      case ToReserve(call, base) =>
        var assignment := NewAssignment(call.intent.request, base, call.now);
        var (t, r) := AssignIn(s.store, assignment);
        ReservationAnswers(c, s.store, call, base);
        match r {
          case Ok(_) => ReturnIsClosed(c, s, who, t, Reserving(call, base), Granted(assignment));
          case Err(AssignmentExists) => AtIsBusy(c, s, who, ToFetch(call));
          case Err(e) => TellIsClosed(c, s, who, call, Failed(e));
        }
    }
  }

  lemma StepIsOwned(c: Checks, s: System, a: Action)
    requires RegistryClients.Enabled(s, a) && (if a.Begin? then a.who !in s.clients else Busy(s, a.who))
    requires WellFormed(c, s.store) && (!a.Begin? ==> Knows(c, s.store, s.clients[a.who]))
    requires s.clients.Keys == s.began.Keys && (a.Begin? ==> NotLogged(s.log, a.who) && a.who !in s.ended && a.who !in s.late && a.who !in s.missed)
    ensures Touches(s, Step(c, s, a), a.who) && Status(c, Step(c, s, a), a.who)
  {
    hide WellFormed, FirstRead, FromAgent, Return, Tell, CommitIn, AssignIn, NewAssignment, BestPick, BestChoice, ServiceGet, NotLogged,
      ValidateRequest, Candidate, PrepareOn, ReadIn;
    match a {
      case Begin(_, _) =>
      case Read(who) => FirstReadIsOwned(c, s, who, s.clients[who].call);
      case ReadAgent(who) =>
        var call := s.clients[who].call;
        FromAgentIsOwned(c, s, who, call, ServiceGet(c, s.store, call.intent.owner, s.clients[who].assignment.agentId));
      case List(who) => ListIsOwned(c, s, who);
      case Perform(who) => PerformIsOwned(c, s, who);
      case Fetch(who) =>
        var call := s.clients[who].call;
        match AssignmentIn(s.store, call.intent.request.owner, call.intent.request) {
          case Ok(assignment) => ReturnIsClosed(c, s, who, s.store, call, Granted(assignment));
          case Err(e) => ReturnIsClosed(c, s, who, s.store, call, Failed(e));
        }
    }
  }

  /** Records are kept only of clients that have begun. */
  ghost predicate Known(s: System) {
    forall w :: (w in s.ended || w in s.late || w in s.missed) ==> w in s.clients
  }

  lemma ActorIsBusy(c: Checks, s: System, a: Action)
    requires RegistryClients.Enabled(s, a) && Owned(c, s) && Known(s)
    ensures if a.Begin? then a.who !in s.clients else Busy(s, a.who)
    ensures a.Begin? ==> NotLogged(s.log, a.who) && a.who !in s.ended && a.who !in s.late && a.who !in s.missed
  {
    hide Busy, Closed;
    if !a.Begin? { assert Status(c, s, a.who); }
  }

  lemma StepKeepsOwned(c: Checks, s: System, a: Action)
    requires RegistryClients.Enabled(s, a) && RegistryClients.Invariant(c, s) && Owned(c, s) && Known(s)
    ensures Owned(c, Step(c, s, a)) && Known(Step(c, s, a)) && Touches(s, Step(c, s, a), a.who)
  {
    hide Step, RegistryClients.Enabled, Status, Touches, Busy, Instant, Grows, RegistryClients.Invariant, NotLogged, WellFormed, Knows;
    ActorIsBusy(c, s, a);
    ActorKnows(c, s, a);
    KeysBegan(c, s);
    StepIsOwned(c, s, a);
    StepKeepsInvariant(c, s, a);
    OwnedStep(c, s, Step(c, s, a), a.who);
    TouchesKnown(s, Step(c, s, a), a.who);
  }

  lemma ActorKnows(c: Checks, s: System, a: Action)
    requires RegistryClients.Enabled(s, a) && RegistryClients.Invariant(c, s)
    ensures WellFormed(c, s.store) && (!a.Begin? ==> a.who in s.clients && Knows(c, s.store, s.clients[a.who]))
  {
    hide WellFormed, Knows;
  }

  lemma KeysBegan(c: Checks, s: System)
    requires Owned(c, s)
    ensures s.clients.Keys == s.began.Keys
  {
    hide Status;
  }

  lemma TouchesKnown(s: System, t: System, who: nat)
    requires Touches(s, t, who) && Known(s)
    ensures Known(t)
  {}

  /** Every client is at work or answered, once and for the command it began: by an
      entry of the log or of the late answers whose instant lies within its call,
      or, when the answer that nobody is eligible was right at no such instant, as missed. */
  lemma {:induction false} EveryReplyIsAccounted(c: Checks, actions: seq<Action>)
    ensures Owned(c, Run(c, INITIAL, actions)) && Known(Run(c, INITIAL, actions))
  {
    hide Step, RegistryClients.Enabled, RegistryClients.Invariant, Owned, Known, Touches;
    if actions == [] {
      NothingOwned(c);
    } else {
      var n := |actions| - 1;
      EveryReplyIsAccounted(c, actions[..n]);
      RegistryClients.RunKeepsInvariant(c, actions[..n]);
      var s := Run(c, INITIAL, actions[..n]);
      if RegistryClients.Enabled(s, actions[n]) { StepKeepsOwned(c, s, actions[n]); }
    }
  }

  lemma NothingOwned(c: Checks)
    ensures Owned(c, INITIAL) && Known(INITIAL)
  {}

  /** What a run only adds to: entries, beginnings and returns. */
  ghost predicate Since(s: System, t: System) {
    && s.log <= t.log
    && (forall w :: w in s.ended ==> w in t.ended && t.ended[w] == s.ended[w])
    && (forall w :: w in t.began ==> (w in s.began && t.began[w] == s.began[w]) || (w !in s.began && t.began[w].at >= |s.log|))
  }

  lemma TouchesSince(s: System, t: System, who: nat)
    requires Touches(s, t, who) && who !in s.ended
    ensures Since(s, t)
  {}

  lemma SinceTransitive(s: System, t: System, u: System)
    requires Since(s, t) && Since(t, u) && s.began.Keys <= t.began.Keys
    ensures Since(s, u)
  {}

  lemma {:induction false} RunSince(c: Checks, actions: seq<Action>, n: nat)
    requires n <= |actions|
    ensures var s, t := Run(c, INITIAL, actions[..n]), Run(c, INITIAL, actions);
      Since(s, t) && s.began.Keys <= t.began.Keys
  {
    hide Step, RegistryClients.Enabled, RegistryClients.Invariant, Owned, Known, Touches, Since;
    if n == |actions| {
      assert actions[..n] == actions;
      SinceReflexive(Run(c, INITIAL, actions));
    } else {
      var m := |actions| - 1;
      assert actions[..m][..n] == actions[..n];
      RunSince(c, actions[..m], n);
      var s, a := Run(c, INITIAL, actions[..m]), actions[m];
      if RegistryClients.Enabled(s, a) {
        EveryReplyIsAccounted(c, actions[..m]);
        RegistryClients.RunKeepsInvariant(c, actions[..m]);
        StepKeepsOwned(c, s, a);
        NotEnded(c, s, a);
        TouchesSince(s, Step(c, s, a), a.who);
        BeganGrows(s, Step(c, s, a), a.who);
        SinceTransitive(Run(c, INITIAL, actions[..n]), s, Step(c, s, a));
      }
    }
  }

  lemma SinceReflexive(s: System)
    ensures Since(s, s)
  {}

  lemma BeganGrows(s: System, t: System, who: nat)
    requires Touches(s, t, who)
    ensures s.began.Keys <= t.began.Keys
  {}

  lemma NotEnded(c: Checks, s: System, a: Action)
    requires RegistryClients.Enabled(s, a) && Owned(c, s) && Known(s)
    ensures a.who !in s.ended
  {
    hide Owned, Known, RegistryClients.Enabled, NotLogged;
    ActorIsBusy(c, s, a);
  }

  /** The place of a client's instant: an entry stands between the stores before
      and after it, a late answer at the store when that much was logged. */
  ghost predicate Place(s: System, who: nat, place: int) {
    || (exists i :: 0 <= i < |s.log| && s.log[i].who == who && place == 2 * i + 1)
    || (who in s.late && place == 2 * s.late[who])
  }

  lemma PlaceWithin(c: Checks, s: System, who: nat, place: int)
    requires Owned(c, s) && Known(s) && Place(s, who, place)
    ensures who in s.began && who in s.ended && 2 * s.began[who].at <= place <= 2 * s.ended[who]
  {
    hide RightAt;
    if i :| 0 <= i < |s.log| && s.log[i].who == who && place == 2 * i + 1 {
      assert Status(c, s, who) && !NotLogged(s.log, who);
      var k :| AnsweredAt(s, who, s.clients[who].reply, k);
      assert k == i;
    } else {
      assert Status(c, s, who);
    }
  }

  /** A client that began after another had returned has its instant no earlier. */
  lemma RealTimeOrder(c: Checks, actions: seq<Action>, n: nat, v: nat, w: nat, p: int, q: int)
    requires n <= |actions|
    requires var s := Run(c, INITIAL, actions[..n]); v in s.clients && s.clients[v].Returned? && w !in s.clients
    requires var t := Run(c, INITIAL, actions); Place(t, v, p) && Place(t, w, q)
    ensures p <= q
  {
    hide *;
    var s, t := Run(c, INITIAL, actions[..n]), Run(c, INITIAL, actions);
    EveryReplyIsAccounted(c, actions[..n]);
    EveryReplyIsAccounted(c, actions);
    RunSince(c, actions, n);
    PlaceWithin(c, t, v, p);
    PlaceWithin(c, t, w, q);
    ReturnedHasEnded(c, s, v);
    KeysBegan(c, s);
    AfterReturn(s, t, v, w);
  }

  lemma ReturnedHasEnded(c: Checks, s: System, who: nat)
    requires Owned(c, s) && who in s.clients && s.clients[who].Returned?
    ensures who in s.ended && s.ended[who] <= |s.log|
  {
    hide RightAt, NotLogged, Busy;
    assert Status(c, s, who);
  }

  lemma AfterReturn(s: System, t: System, v: nat, w: nat)
    requires Since(s, t) && v in s.ended && s.ended[v] <= |s.log| && w !in s.began && w in t.began
    ensures v in t.ended && t.ended[v] <= t.began[w].at
  {}

  // What the picks were

  /** When that much was logged, this agent was the best choice, as it is here. */
  ghost predicate PickedAt(c: Checks, log: seq<Logged>, at: nat, call: Call, base: Agent)
    requires at <= |log| && call.intent.Assign?
  {
    var s, r := StoreAfter(c, log[..at]), call.intent.request;
    BestChoice(s, r, call.now, Choice(base.id, base.revision)) && s.agents[Key(r.owner, base.id)] == base
  }

  ghost predicate PickedFrom(c: Checks, log: seq<Logged>, from: nat, to: nat, call: Call, base: Agent)
    requires to <= |log| && call.intent.Assign?
  {
    exists at :: from <= at <= to && PickedAt(c, log, at, call, base)
  }

  /** What a fresh grant was made of: the agent as it is at the grant. */
  ghost predicate GrantedFrom(c: Checks, log: seq<Logged>, i: nat, base: Agent)
    requires i < |log|
  {
    && log[i].call.intent.Assign? && base.availability.max != 0 && ValidateRequest(c, log[i].call.intent.request)
    && log[i].call.choice == Some(Choice(base.id, base.revision))
    && log[i].reply == Granted(NewAssignment(log[i].call.intent.request, base, log[i].call.now))
  }

  /** An entry has a choice if and only if it is a fresh grant, and then the agent
      it reserves was the best choice at an instant of the call. */
  ghost predicate EntryPicked(c: Checks, s: System, i: nat)
    requires i < |s.log|
  {
    && (s.log[i].call.intent.Assign? && s.log[i].call.choice.Some? ==> Fresh(c, s.log, i))
    && (Fresh(c, s.log, i) ==>
          exists base :: GrantedFrom(c, s.log, i, base) && s.log[i].who in s.began
            && PickedFrom(c, s.log, s.began[s.log[i].who].at, i, s.log[i].call, base))
  }

  /** What a client is about to reserve was the best choice at an instant of its call. */
  ghost predicate ClientPicked(c: Checks, s: System, who: nat)
    requires who in s.clients
  {
    s.clients[who].ToReserve? ==>
      who in s.began && s.clients[who].call.intent.Assign?
      && PickedFrom(c, s.log, s.began[who].at, |s.log|, s.clients[who].call, s.clients[who].base)
  }

  ghost predicate Picked(c: Checks, s: System) {
    && (forall who :: who in s.clients ==> ClientPicked(c, s, who))
    && (forall i :: 0 <= i < |s.log| ==> EntryPicked(c, s, i))
  }

  lemma PickedStays(c: Checks, log: seq<Logged>, longer: seq<Logged>, from: nat, to: nat, call: Call, base: Agent)
    requires to <= |log| && log <= longer && call.intent.Assign? && PickedFrom(c, log, from, to, call, base)
    ensures PickedFrom(c, longer, from, |longer|, call, base) && PickedFrom(c, longer, from, to, call, base)
  {
    hide BestChoice, StoreAfter;
    var at :| from <= at <= to && PickedAt(c, log, at, call, base);
    assert longer[..at] == log[..at];
    assert PickedAt(c, longer, at, call, base);
  }

  lemma EntryStays(c: Checks, s: System, t: System, i: nat)
    requires s.log <= t.log && i < |s.log| && EntryPicked(c, s, i)
    requires forall w :: w in s.began ==> w in t.began && t.began[w] == s.began[w]
    ensures EntryPicked(c, t, i)
  {
    hide PickedFrom, StoreAfter, ValidateRequest, NewAssignment;
    assert t.log[..i] == s.log[..i];
    if Fresh(c, s.log, i) {
      var base :| GrantedFrom(c, s.log, i, base) && PickedFrom(c, s.log, s.began[s.log[i].who].at, i, s.log[i].call, base);
      PickedStays(c, s.log, t.log, s.began[s.log[i].who].at, i, s.log[i].call, base);
      assert GrantedFrom(c, t.log, i, base);
    }
  }

  /** What one step does about picks: it logs only a reserved base with a choice,
      and only a listing makes a base, the best of the store. */
  ghost predicate PicksRightly(c: Checks, s: System, t: System, who: nat) {
    && who in t.clients
    && (t.clients[who].ToReserve? ==>
          && t.log == s.log && t.clients[who].call.intent.Assign?
          && var call, base := t.clients[who].call, t.clients[who].base;
             Bests(s.store, call, base))
    && (t.log == s.log || (|t.log| == |s.log| + 1 && s.log <= t.log && LogsRightly(c, s, t.log[|s.log|])))
  }

  ghost predicate Bests(s: Store, call: Call, base: Agent)
    requires call.intent.Assign?
  {
    var r := call.intent.request;
    BestChoice(s, r, call.now, Choice(base.id, base.revision)) && s.agents[Key(r.owner, base.id)] == base
  }

  ghost predicate LogsRightly(c: Checks, s: System, x: Logged) {
    x.call.intent.Assign? ==>
      var ak := AssignmentKey(x.call.intent.request.owner, x.call.intent.request);
      if x.call.choice.Some? then
        && x.who in s.clients && s.clients[x.who].ToReserve? && ak !in s.store.assignments
        && var call, base := s.clients[x.who].call, s.clients[x.who].base;
           && x.call == Reserving(call, base) && base.availability.max != 0 && ValidateRequest(c, call.intent.request)
           && x.reply == Granted(NewAssignment(call.intent.request, base, call.now))
      else x.reply.Granted? ==> ak in s.store.assignments
  }

  lemma ReturnPicks(c: Checks, s: System, who: nat, store: Store, call: Call, reply: Reply)
    requires LogsRightly(c, s, Logged(who, call, reply))
    ensures PicksRightly(c, s, Return(s, who, store, call, reply), who)
  {
    hide LogsRightly, Bests;
    assert Return(s, who, store, call, reply).log[|s.log|] == Logged(who, call, reply);
  }

  lemma AtPicks(c: Checks, s: System, who: nat, pc: Pc)
    requires pc.ToReserve? ==> pc.call.intent.Assign? && Bests(s.store, pc.call, pc.base)
    ensures PicksRightly(c, s, At(s, who, pc), who)
  {
    hide LogsRightly, Bests;
  }

  lemma TellPicks(c: Checks, s: System, who: nat, call: Call, reply: Reply)
    ensures PicksRightly(c, s, Tell(c, s, who, call, reply), who)
  {
    hide LogsRightly, Bests, RightBefore, RightAt;
  }

  lemma FromAgentPicks(c: Checks, s: System, who: nat, call: Call, found: Result<Agent, Error>)
    requires !call.intent.Register? && !call.intent.Assign?
    ensures PicksRightly(c, s, FromAgent(c, s, who, call, found), who)
  {
    hide PrepareOn, PicksRightly, Return, At;
    match found
    case Err(e) => ReturnPicks(c, s, who, s.store, call, Failed(e));
    case Ok(current) =>
      match PrepareOn(c, s.store, current, call)
      case Err(e) => ReturnPicks(c, s, who, s.store, call, Failed(e));
      case Ok(commit) => AtPicks(c, s, who, ToCommit(call, current, commit));
  }

  lemma FirstReadPicks(c: Checks, s: System, who: nat, call: Call)
    requires call.choice == None
    ensures PicksRightly(c, s, FirstRead(c, s, who, call), who)
  {
    hide PrepareOn, ValidateRequest, RegisterIn, ServiceGet, ServiceGetAssignment, FromAgent, PicksRightly, Return, At, NewAssignment;
    match call.intent {
      case Register(input) =>
        var (t, reply) := RegisterIn(c, s.store, input, call.now);
        ReturnPicks(c, s, who, t, call, reply);
      case Update(owner, replacement, _) => FromAgentPicks(c, s, who, call, ServiceGet(c, s.store, owner, replacement.id));
      case Transit(owner, id, _, _, _) => FromAgentPicks(c, s, who, call, ServiceGet(c, s.store, owner, id));
      case Record(owner, assignment, _, _) =>
        match ServiceGetAssignment(c, s.store, owner, assignment) {
          case Err(e) => ReturnPicks(c, s, who, s.store, call, Failed(e));
          case Ok(a) => AtPicks(c, s, who, ToRead(call, a));
        }
      case Assign(r) =>
        if !ValidateRequest(c, r) {
          ReturnPicks(c, s, who, s.store, call, Failed(InvalidInput));
        } else {
          match AssignmentIn(s.store, r.owner, r) {
            case Ok(a) => ReturnPicks(c, s, who, s.store, call, Granted(a));
            case Err(_) => AtPicks(c, s, who, ToList(call));
          }
        }
    }
  }

  lemma ListPicks(c: Checks, s: System, who: nat)
    requires RegistryClients.Enabled(s, List(who)) && s.clients[who].call.choice == None && WellFormed(c, s.store)
    ensures PicksRightly(c, s, Step(c, s, List(who)), who)
  {
    hide SoundAgent, ValidateRequest, Candidate, Beats, PicksRightly, Return, At, BestPick, Tell, NewAssignment;
    var call := s.clients[who].call;
    var r := call.intent.request;
    var pick := BestPick(s.store, r, call.now);
    if pick == None {
      if AssignmentKey(r.owner, r) in s.store.assignments {
        TellPicks(c, s, who, call, Failed(NoEligibleAgent));
      } else {
        ReturnPicks(c, s, who, s.store, call, Failed(NoEligibleAgent));
      }
    } else {
      AtPicks(c, s, who, ToReserve(call, s.store.agents[Key(r.owner, pick.value.id)]));
    }
  }

  lemma PerformPicks(c: Checks, s: System, who: nat)
    requires WellFormed(c, s.store) && RegistryClients.Enabled(s, Perform(who)) && Knows(c, s.store, s.clients[who])
    ensures PicksRightly(c, s, Step(c, s, Perform(who)), who)
  {
    hide WellFormed, ValidateRequest, Candidate, PrepareOn, ReadIn, PicksRightly, Return, At, Tell, CommitIn, NewAssignment;
    match s.clients[who] {
      case ToCommit(call, base, commit) =>
        var (t, r) := CommitIn(s.store, commit, Expected(call.intent));
        ReturnPicks(c, s, who, t, call, AgentReply(r));
      case ToReserve(call, base) =>
        var assignment := NewAssignment(call.intent.request, base, call.now);
        NewAssignmentKey(call.intent.request, base, call.now);
        var (t, r) := AssignIn(s.store, assignment);
        match r {
          case Ok(_) => ReturnPicks(c, s, who, t, Reserving(call, base), Granted(assignment));
          case Err(AssignmentExists) => AtPicks(c, s, who, ToFetch(call));
          case Err(e) => TellPicks(c, s, who, call, Failed(e));
        }
    }
  }

  lemma StepPicks(c: Checks, s: System, a: Action)
    requires RegistryClients.Enabled(s, a) && WellFormed(c, s.store) && (!a.Begin? ==> Knows(c, s.store, s.clients[a.who]))
    ensures PicksRightly(c, s, Step(c, s, a), a.who)
  {
    hide WellFormed, FirstRead, FromAgent, Return, Tell, BestPick, BestChoice, ServiceGet, ValidateRequest, Candidate, PrepareOn, ReadIn,
      AssignIn, CommitIn, NewAssignment;
    match a {
      case Begin(who, call) => AtPicks(c, s, who, Started(call));
      case Read(who) => FirstReadPicks(c, s, who, s.clients[who].call);
      case ReadAgent(who) =>
        var call := s.clients[who].call;
        FromAgentPicks(c, s, who, call, ServiceGet(c, s.store, call.intent.owner, s.clients[who].assignment.agentId));
      case List(who) => ListPicks(c, s, who);
      case Perform(who) => PerformPicks(c, s, who);
      case Fetch(who) =>
        var call := s.clients[who].call;
        match AssignmentIn(s.store, call.intent.request.owner, call.intent.request) {
          case Ok(assignment) => ReturnPicks(c, s, who, s.store, call, Granted(assignment));
          case Err(e) => ReturnPicks(c, s, who, s.store, call, Failed(e));
        }
    }
  }

  lemma ClientStaysPicked(c: Checks, s: System, t: System, who: nat, w: nat)
    requires s.log <= t.log && w in s.clients && w in t.clients && t.clients[w] == s.clients[w] && ClientPicked(c, s, w)
    requires w in s.began ==> w in t.began && t.began[w] == s.began[w]
    ensures ClientPicked(c, t, w)
  {
    hide PickedFrom;
    if s.clients[w].ToReserve? {
      PickedStays(c, s.log, t.log, s.began[w].at, |s.log|, s.clients[w].call, s.clients[w].base);
    }
  }

  lemma ListerPicked(c: Checks, s: System, t: System, who: nat)
    requires s.store == StoreAfter(c, s.log) && PicksRightly(c, s, t, who)
    requires who in t.began && t.began[who].at <= |t.log|
    ensures ClientPicked(c, t, who)
  {
    hide StoreAfter, BestChoice;
    if t.clients[who].ToReserve? {
      assert t.log[..|t.log|] == s.log;
      assert PickedAt(c, t.log, |t.log|, t.clients[who].call, t.clients[who].base);
    }
  }

  lemma GrantPicked(c: Checks, s: System, t: System, x: Logged)
    requires s.store == StoreAfter(c, s.log) && WellFormed(c, s.store) && t.log == s.log + [x] && LogsRightly(c, s, x)
    requires x.who in s.clients ==> ClientPicked(c, s, x.who) && Knows(c, s.store, s.clients[x.who])
    requires x.who in s.began ==> x.who in t.began && t.began[x.who] == s.began[x.who]
    requires x.reply == Exec(c, s.store, x.call).1
    ensures EntryPicked(c, t, |s.log|)
  {
    hide StoreAfter, PickedFrom, ValidateRequest, NewAssignment, WellFormed, Candidate, Exec;
    assert t.log[..|s.log|] == s.log;
    assert t.log[|s.log|] == x;
    if x.call.intent.Assign? && x.call.choice.Some? {
      var base := s.clients[x.who].base;
      PickedStays(c, s.log, t.log, s.began[x.who].at, |s.log|, s.clients[x.who].call, base);
      SamePicked(c, t.log, s.began[x.who].at, |s.log|, s.clients[x.who].call, x.call, base);
      assert GrantedFrom(c, t.log, |s.log|, base);
    }
  }

  /** Picking looks at the request and the clock only. */
  lemma SamePicked(c: Checks, log: seq<Logged>, from: nat, to: nat, call: Call, other: Call, base: Agent)
    requires to <= |log| && call.intent.Assign? && other.intent == call.intent && other.now == call.now
    requires PickedFrom(c, log, from, to, call, base)
    ensures PickedFrom(c, log, from, to, other, base)
  {
    hide StoreAfter, BestChoice;
    var at :| from <= at <= to && PickedAt(c, log, at, call, base);
    assert PickedAt(c, log, at, other, base);
  }

  lemma StepKeepsPicked(c: Checks, s: System, a: Action)
    requires RegistryClients.Enabled(s, a) && RegistryClients.Invariant(c, s) && Owned(c, s) && Known(s) && Picked(c, s) && s.store == StoreAfter(c, s.log)
    ensures Picked(c, Step(c, s, a))
  {
    hide Step, RegistryClients.Enabled, Owned, Known, EntryPicked, ClientPicked, WellFormed, Knows, StoreAfter, Exec, LogsRightly, Bests;
    var t := Step(c, s, a);
    ActorKnows(c, s, a);
    StepPicks(c, s, a);
    StepKeepsOwned(c, s, a);
    StepKeepsInvariant(c, s, a);
    BeganInTime(c, t, a.who);
    KeysBegan(c, s);
    ListerPicked(c, s, t, a.who);
    forall w | w in t.clients ensures ClientPicked(c, t, w) {
      if w != a.who { ClientStaysPicked(c, s, t, a.who, w); }
    }
    forall i | 0 <= i < |t.log| ensures EntryPicked(c, t, i) {
      if i < |s.log| { EntryStays(c, s, t, i); }
      else {
        var x := t.log[|s.log|];
        assert t.log == s.log + [x];
        GrantPicked(c, s, t, x);
      }
    }
  }

  lemma BeganInTime(c: Checks, s: System, who: nat)
    requires Owned(c, s) && who in s.clients
    ensures who in s.began && s.began[who].at <= |s.log|
  {
    hide RightAt, NotLogged;
    assert Status(c, s, who);
  }

  lemma {:induction false} RunKeepsPicked(c: Checks, actions: seq<Action>)
    ensures Picked(c, Run(c, INITIAL, actions))
  {
    hide Step, RegistryClients.Enabled, RegistryClients.Invariant, Owned, Known, EntryPicked, ClientPicked, StoreAfter, Atomic;
    if actions != [] {
      var n := |actions| - 1;
      RunKeepsPicked(c, actions[..n]);
      RegistryClients.RunKeepsInvariant(c, actions[..n]);
      EveryReplyIsAccounted(c, actions[..n]);
      InterleavedRunsAreAtomic(c, actions[..n]);
      var s := Run(c, INITIAL, actions[..n]);
      if RegistryClients.Enabled(s, actions[n]) { StepKeepsPicked(c, s, actions[n]); }
    }
  }

  // What an assignment answers

  /** Whatever the others did since the listing, reserving ends in one of three ways,
      and it is refused if and only if the request has no assignment and the listed
      agent has changed. A refused client is missed, and store and log stay. */
  lemma ReservationRefusedIff(c: Checks, actions: seq<Action>, who: nat)
    requires var s := Run(c, INITIAL, actions); RegistryClients.Enabled(s, Perform(who)) && s.clients[who].ToReserve?
    ensures var s := Run(c, INITIAL, actions);
      var t, call, base := Step(c, s, Perform(who)), s.clients[who].call, s.clients[who].base;
      var ak := AssignmentKey(call.intent.request.owner, call.intent.request);
      && KeyOf(base) in s.store.agents
      && (IsAt(t, who, ToFetch(call)) <==> ak in s.store.assignments)
      && (IsAt(t, who, Returned(Failed(RevisionConflict))) <==>
            ak !in s.store.assignments && s.store.agents[KeyOf(base)].revision != base.revision)
      && (IsAt(t, who, Returned(Granted(NewAssignment(call.intent.request, base, call.now)))) <==>
            ak !in s.store.assignments && s.store.agents[KeyOf(base)] == base)
      && (IsAt(t, who, Returned(Failed(RevisionConflict))) ==> who in t.missed && t.store == s.store && t.log == s.log)
  {
    hide Run, WellFormed, ValidateRequest, Candidate, NewAssignment, AssignIn, NotLogged, RightBefore;
    RegistryClients.RunKeepsInvariant(c, actions);
    var s := Run(c, INITIAL, actions);
    var call, base := s.clients[who].call, s.clients[who].base;
    assert Knows(c, s.store, s.clients[who]);
    ReservationAnswers(c, s.store, call, base);
    ConflictIsNeverRight(c, s, who, call);
  }

  predicate IsAt(s: System, who: nat, pc: Pc) {
    who in s.clients && s.clients[who] == pc
  }

  /** A conflict is the answer of a whole assignment in no store, so every client
      whose assignment is answered so is counted as missed. */
  lemma ConflictsAreMissed(c: Checks, actions: seq<Action>, who: nat)
    requires var s := Run(c, INITIAL, actions);
      who in s.clients && s.clients[who] == Returned(Failed(RevisionConflict)) && who in s.began && s.began[who].call.intent.Assign?
    ensures who in Run(c, INITIAL, actions).missed
  {
    hide Run, Exec, StoreAfter, RightAt, NotLogged, Known;
    EveryReplyIsAccounted(c, actions);
    InterleavedRunsAreAtomic(c, actions);
    RunKeepsPicked(c, actions);
    var s := Run(c, INITIAL, actions);
    assert Status(c, s, who);
    if who !in s.missed {
      var i :| AnsweredAt(s, who, s.clients[who].reply, i);
      assert EntryPicked(c, s, i);
      WholeNeverConflicts(c, StoreAfter(c, s.log[..i]), s.log[i].call);
    }
  }

  /** An instant at which the pick of this grant was best and the whole assignment
      would have given this very answer. */
  ghost predicate WasBest(c: Checks, log: seq<Logged>, i: nat, at: nat)
    requires at <= i < |log| && Fresh(c, log, i)
  {
    var call, a := log[i].call, log[i].reply.assignment;
    && BestChoice(StoreAfter(c, log[..at]), call.intent.request, call.now, Choice(a.agentId, a.agentRevision))
    && RightAt(c, log, at, call.(choice := None), log[i].reply)
  }

  /** Every fresh grant is the answer of the whole assignment at an instant of its
      call: there the agent it reserves was the best of all. */
  lemma FreshGrantWasBest(c: Checks, actions: seq<Action>, i: nat)
    requires var log := Run(c, INITIAL, actions).log; i < |log| && Fresh(c, log, i)
    ensures var s := Run(c, INITIAL, actions);
      && s.log[i].who in s.began
      && exists at :: s.began[s.log[i].who].at <= at <= i && WasBest(c, s.log, i, at)
  {
    hide Run, StoreAfter, ValidateRequest, NewAssignment, BestChoice, WasBest, ClientPicked;
    RunKeepsPicked(c, actions);
    var s := Run(c, INITIAL, actions);
    assert EntryPicked(c, s, i);
    var base :| GrantedFrom(c, s.log, i, base) && s.log[i].who in s.began
      && PickedFrom(c, s.log, s.began[s.log[i].who].at, i, s.log[i].call, base);
    var at :| s.began[s.log[i].who].at <= at <= i && PickedAt(c, s.log, at, s.log[i].call, base);
    PickedIsWhole(c, s.log, i, at, base);
  }

  /** At that instant no eligible agent of the owner outclassed the granted one. */
  ghost predicate WasFittest(c: Checks, log: seq<Logged>, i: nat, at: nat)
    requires at <= i < |log| && Fresh(c, log, i)
  {
    var s, r, k := StoreAfter(c, log[..at]), log[i].call.intent.request, Key(log[i].call.intent.request.owner, log[i].reply.assignment.agentId);
    && k in s.agents
    && forall o :: o in s.agents && o.owner == r.owner && Candidate(s.agents[o], r, log[i].call.now) ==> !Outclasses(s.agents[o], s.agents[k], r)
  }

  lemma FreshGrantWasFittest(c: Checks, actions: seq<Action>, i: nat)
    requires var log := Run(c, INITIAL, actions).log; i < |log| && Fresh(c, log, i)
    ensures var s := Run(c, INITIAL, actions);
      && s.log[i].who in s.began
      && exists at :: s.began[s.log[i].who].at <= at <= i && WasFittest(c, s.log, i, at)
  {
    hide Run, StoreAfter, BestChoice, Candidate, Outclasses, RightAt, WellFormed;
    FreshGrantWasBest(c, actions, i);
    var s := Run(c, INITIAL, actions);
    var at :| s.began[s.log[i].who].at <= at <= i && WasBest(c, s.log, i, at);
    var store, call, a := StoreAfter(c, s.log[..at]), s.log[i].call, s.log[i].reply.assignment;
    StoreIsWellFormed(c, s.log[..at]);
    WellFormedKeys(c, store);
    PickIsStored(store, call.intent.request, call.now, Choice(a.agentId, a.agentRevision));
    forall o | o in store.agents && o.owner == call.intent.request.owner && Candidate(store.agents[o], call.intent.request, call.now)
      ensures !Outclasses(store.agents[o], store.agents[Key(call.intent.request.owner, a.agentId)], call.intent.request)
    {
      BestIsNotOutclassed(store, call.intent.request, call.now, Choice(a.agentId, a.agentRevision), o);
    }
    assert WasFittest(c, s.log, i, at);
  }

  /** And at the grant itself the agent fits the request, and what is granted is what
      was asked for. */
  lemma FreshGrantFits(c: Checks, actions: seq<Action>, i: nat)
    requires var log := Run(c, INITIAL, actions).log; i < |log| && Fresh(c, log, i)
    ensures var log := Run(c, INITIAL, actions).log;
      var r, a, now := log[i].call.intent.request, log[i].reply.assignment, log[i].call.now;
      var s, k := StoreAfter(c, log[..i]), Key(r.owner, a.agentId);
      && k in s.agents && RegistryMeaning.Fits(s.agents[k], r, now) && RegistryMeaning.GrantOf(a, r, s.agents[k], now)
  {
    hide *;
    FreshGrantIsEligible(c, actions, i);
    var log := Run(c, INITIAL, actions).log;
    var r, now := FreshRequest(c, log, i);
    var s, k := StoreAfter(c, log[..i]), Key(r.owner, log[i].reply.assignment.agentId);
    StoreIsWellFormed(c, log[..i]);
    RegistryMeaning.StoredIsSound(c, s, k);
    RegistryMeaning.EligibleIffFits(c, s.agents[k], r, now);
    CandidateHasSlots(s.agents[k], r, now);
    RegistryMeaning.NewIsGrantOf(r, s.agents[k], now);
  }

  /** In every interleaving each agent's first version is what was registered, and each
      later one is what its command says of the one before, in every field. */
  lemma InterleavedVersionsSay(c: Checks, actions: seq<Action>, k: Key)
    requires k in Run(c, INITIAL, actions).store.agents
    ensures var history := RunCalls(c, CallsOf(Run(c, INITIAL, actions).log)).history;
      k in history && RegistryMeaning.HistorySays(history[k])
  {
    hide *;
    InterleavedHistoriesAreGapFree(c, actions, k);
    RegistryMeaning.EveryVersionSays(c, CallsOf(Run(c, INITIAL, actions).log), k);
  }

  lemma FreshRequest(c: Checks, log: seq<Logged>, i: nat) returns (r: Request, now: int)
    requires i < |log| && Fresh(c, log, i)
    ensures log[i].call.intent.Assign? && log[i].reply.Granted? && r == log[i].call.intent.request && now == log[i].call.now
  {
    hide StoreAfter;
    r, now := log[i].call.intent.request, log[i].call.now;
  }

  lemma PickedIsWhole(c: Checks, log: seq<Logged>, i: nat, at: nat, base: Agent)
    requires at <= i < |log| && Fresh(c, log, i) && GrantedFrom(c, log, i, base) && PickedAt(c, log, at, log[i].call, base)
    ensures WasBest(c, log, i, at)
  {
    hide StoreAfter, ValidateRequest, BestChoice, BestPick, Newer, WellFormed, Components, Score, RoundScore, Candidate;
    var r, now := log[i].call.intent.request, log[i].call.now;
    var s := StoreAfter(c, log[..at]);
    assert log[..i][..at] == log[..at];
    LaterStoresGrow(c, log[..i], at);
    StoreIsWellFormed(c, log[..at]);
    WellFormedKeys(c, s);
    BestIsPicked(s, r, now, Choice(base.id, base.revision));
  }

  /** At the grant itself, the whole assignment would do the same, in store and
      reply, if and only if the agent is still the best choice. */
  lemma GrantIsWholeIff(c: Checks, actions: seq<Action>, i: nat)
    requires var log := Run(c, INITIAL, actions).log; i < |log| && Fresh(c, log, i)
    ensures var log := Run(c, INITIAL, actions).log;
      var call, a := log[i].call, log[i].reply.assignment;
      Exec(c, StoreAfter(c, log[..i]), call.(choice := None)) == (StoreAfter(c, log[..i + 1]), log[i].reply)
      <==> BestChoice(StoreAfter(c, log[..i]), call.intent.request, call.now, Choice(a.agentId, a.agentRevision))
  {
    hide Run, StoreAfter, Exec, ValidateRequest, BestChoice, NewAssignment, PickedFrom, ClientPicked;
    InterleavedRunsAreAtomic(c, actions);
    RunKeepsPicked(c, actions);
    var s := Run(c, INITIAL, actions);
    assert EntryPicked(c, s, i);
    var base :| GrantedFrom(c, s.log, i, base);
    NewAssignmentKey(s.log[i].call.intent.request, base, s.log[i].call.now);
    RegistryClients.LogGrows(c, s.log[..i], s.log[i]);
    assert s.log[..i] + [s.log[i]] == s.log[..i + 1];
    StoreIsWellFormed(c, s.log[..i]);
    LastPartIsWholeIff(c, StoreAfter(c, s.log[..i]), s.log[i].call);
  }

  lemma LastPartIsWholeIff(c: Checks, s: Store, call: Call)
    requires WellFormed(c, s) && call.intent.Assign? && call.choice.Some? && ValidateRequest(c, call.intent.request)
    requires AssignmentKey(call.intent.request.owner, call.intent.request) !in s.assignments
    ensures Exec(c, s, call) == Exec(c, s, call.(choice := None)) <==> BestChoice(s, call.intent.request, call.now, call.choice.value)
  {
    hide ValidateRequest, BestChoice, ReserveListed, AssignWhole, WellFormed;
    WellFormedKeys(c, s);
    ListedIsWholeIff(c, s, call.intent.request, call.now, call.choice.value);
  }

  /** The client's own command, whole, gives its answer at that instant of its call. */
  ghost predicate RightWithin(c: Checks, s: System, who: nat, at: nat) {
    && who in s.clients && s.clients[who].Returned?
    && who in s.began && who in s.ended && s.began[who].at <= at <= s.ended[who] <= |s.log|
    && RightAt(c, s.log, at, s.began[who].call, s.clients[who].reply)
  }

  /** Every answer is that of the client's whole command at an instant of its call,
      if and only if the client is not missed. */
  lemma EveryReplyIsRight(c: Checks, actions: seq<Action>, who: nat)
    requires var s := Run(c, INITIAL, actions); who in s.clients && s.clients[who].Returned?
    ensures var s := Run(c, INITIAL, actions); who !in s.missed <==> exists at :: RightWithin(c, s, who, at)
  {
    hide Run, StoreAfter, RightAt, NotLogged, Known, EntryPicked, ClientPicked, Fresh, WasBest;
    EveryReplyIsAccounted(c, actions);
    var s := Run(c, INITIAL, actions);
    assert Status(c, s, who);
    if who in s.late {
      assert RightWithin(c, s, who, s.late[who]);
    } else if who !in s.missed {
      var i: nat :| AnsweredAt(s, who, s.clients[who].reply, i);
      var at := LoggedIsRight(c, actions, i);
      assert RightWithin(c, s, who, at);
    }
  }

  lemma LoggedIsRight(c: Checks, actions: seq<Action>, i: nat) returns (at: nat)
    requires i < |Run(c, INITIAL, actions).log|
    ensures var s := Run(c, INITIAL, actions);
      && s.log[i].who in s.began && at <= i && RightAt(c, s.log, at, s.log[i].call.(choice := None), s.log[i].reply)
      && (s.began[s.log[i].who].at <= at || at == i)
  {
    hide Run, StoreAfter, NotLogged, Known, ClientPicked, PickedFrom, RightAt, Exec;
    EveryReplyIsAccounted(c, actions);
    InterleavedRunsAreAtomic(c, actions);
    RunKeepsPicked(c, actions);
    var s := Run(c, INITIAL, actions);
    assert EntryPicked(c, s, i);
    assert Status(c, s, s.log[i].who);
    if Fresh(c, s.log, i) {
      FreshGrantWasBest(c, actions, i);
      at :| s.began[s.log[i].who].at <= at <= i && WasBest(c, s.log, i, at);
    } else {
      at := i;
      WithoutChoice(c, s.log, i);
    }
  }

  lemma WithoutChoice(c: Checks, log: seq<Logged>, i: nat)
    requires i < |log| && log[i].reply == Exec(c, StoreAfter(c, log[..i]), log[i].call).1
    requires !(log[i].call.intent.Assign? && log[i].call.choice.Some?)
    ensures RightAt(c, log, i, log[i].call.(choice := None), log[i].reply)
  {
    hide StoreAfter, ReadIn, PrepareUpdate, PrepareTransit, PrepareRecord, ServiceGetAssignment, CommitIn, RegisterIn, AssignWhole;
    if !log[i].call.intent.Register? && !log[i].call.intent.Assign? {
      var s, call := StoreAfter(c, log[..i]), log[i].call;
      var read := ReadIn(c, s, call.intent);
      if read.Ok? { assert PrepareOn(c, s, read.value, call) == PrepareOn(c, s, read.value, call.(choice := None)); }
    }
  }

  /** Nobody was eligible and the request was unassigned when that much was logged. */
  ghost predicate NobodyThen(c: Checks, log: seq<Logged>, at: nat, r: Request, now: int)
    requires at <= |log|
  {
    NobodyEligible(StoreAfter(c, log[..at]), r, now) && AssignmentKey(r.owner, r) !in StoreAfter(c, log[..at]).assignments
  }

  lemma NobodyIsRightIff(c: Checks, log: seq<Logged>, at: nat, call: Call)
    requires at <= |log| && call.intent.Assign? && ValidateRequest(c, call.intent.request) && call.choice == None
    ensures RightAt(c, log, at, call, Failed(NoEligibleAgent)) <==> NobodyThen(c, log, at, call.intent.request, call.now)
  {
    hide ValidateRequest, NobodyEligible, StoreAfter, BestPick, NewAssignment;
    BestPickIff(StoreAfter(c, log[..at]), call.intent.request, call.now);
  }

  /** The answer that nobody is eligible is that of some instant of the call if and
      only if at one of them nobody was eligible and the request was unassigned;
      a client is counted as missed exactly when there was none. */
  lemma ListingAnswerIsAtomicIff(c: Checks, actions: seq<Action>, who: nat)
    requires var s := Run(c, INITIAL, actions);
      && RegistryClients.Enabled(s, List(who))
      && NobodyEligible(s.store, s.clients[who].call.intent.request, s.clients[who].call.now)
    ensures var s := Run(c, INITIAL, actions);
      var t, call := Step(c, s, List(who)), s.clients[who].call;
      && IsAt(t, who, Returned(Failed(NoEligibleAgent)))
      && (who !in t.missed <==> exists at :: Spans(s, who, at) && RightAt(c, s.log, at, call, Failed(NoEligibleAgent)))
      && (who !in t.missed <==> exists at :: Spans(s, who, at) && NobodyThen(c, s.log, at, call.intent.request, call.now))
  {
    hide Run, ValidateRequest, NobodyEligible, StoreAfter, RightAt, NobodyThen, BestPick, NotLogged, WellFormed, Exec;
    RegistryClients.RunKeepsInvariant(c, actions);
    EveryReplyIsAccounted(c, actions);
    InterleavedRunsAreAtomic(c, actions);
    var s := Run(c, INITIAL, actions);
    var call := s.clients[who].call;
    assert Knows(c, s.store, s.clients[who]);
    ActorIsBusy(c, s, List(who));
    forall at | Spans(s, who, at)
      ensures RightAt(c, s.log, at, call, Failed(NoEligibleAgent)) <==> NobodyThen(c, s.log, at, call.intent.request, call.now)
    {
      NobodyIsRightIff(c, s.log, at, call);
    }
    ListingTells(c, s, who);
  }

  lemma ListingTells(c: Checks, s: System, who: nat)
    requires RegistryClients.Enabled(s, List(who)) && Busy(s, who) && s.store == StoreAfter(c, s.log)
    requires var call := s.clients[who].call;
      NobodyEligible(s.store, call.intent.request, call.now) && ValidateRequest(c, call.intent.request) && call.choice == None
    ensures var t := Step(c, s, List(who));
      && IsAt(t, who, Returned(Failed(NoEligibleAgent)))
      && (who !in t.missed <==> RightBefore(c, s, who, s.clients[who].call, Failed(NoEligibleAgent)))
  {
    hide ValidateRequest, NobodyEligible, StoreAfter, RightAt, BestPick, NotLogged, Exec;
    var call := s.clients[who].call;
    var r := call.intent.request;
    BestPickIff(s.store, r, call.now);
    if AssignmentKey(r.owner, r) in s.store.assignments {
      TellIsClosed(c, s, who, call, Failed(NoEligibleAgent));
    } else {
      NobodyNow(c, s, call);
      assert Spans(s, who, |s.log|);
    }
  }

  lemma NobodyNow(c: Checks, s: System, call: Call)
    requires s.store == StoreAfter(c, s.log) && call.intent.Assign? && ValidateRequest(c, call.intent.request) && call.choice == None
    requires NobodyEligible(s.store, call.intent.request, call.now)
    requires AssignmentKey(call.intent.request.owner, call.intent.request) !in s.store.assignments
    ensures RightAt(c, s.log, |s.log|, call, Failed(NoEligibleAgent))
  {
    hide ValidateRequest, NobodyEligible, StoreAfter;
    assert s.log[..|s.log|] == s.log;
    NobodyIsRightIff(c, s.log, |s.log|, call);
  }
}
