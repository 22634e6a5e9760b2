/** Opportunities: accepting and dismissing them while saves, links, routes and
    intakes may fail at any point. Operations run one after the other. */
module Ambient {
  import opened Wrappers
  import Text

  datatype Status = Proposed | Accepted | Dismissed | Completed

  /** What a scan replaces in an opportunity it finds again. */
  datatype Details = Details(
    title: string, rationale: string, nextAction: string, urgency: int, impact: int, effort: int, risk: int,
    requiresApproval: bool, evidence: string)

  /** An ID of 0 is the ID of a record not yet stored; a workflow ID of 0 names no workflow. */
  datatype Opportunity = Opportunity(
    id: nat, owner: string, fingerprint: string, workflowId: Option<nat>, needKey: string, sourceType: string, sourceId: string,
    details: Details, priority: int, confidence: int, status: Status, lastSeenAt: int, cooldownUntil: Option<int>)

  /** A save can fail before or after it took effect. */
  datatype Fault = Fine | LostBefore | LostAfter
  type Oracle = nat -> Fault

  /** The stored opportunities, the number of saves tried, and two logs: one entry
      for each workflow obtained for an opportunity, and one for each of them whose
      reference was lost before it reached the store. */
  datatype State = State(items: map<nat, Opportunity>, next: nat, saves: nat, obtained: seq<nat>, lost: seq<nat>)

  const EMPTY := State(map[], 1, 0, [], [])

  datatype Error = NotFound | WrongState | NeedsReview | ServiceFailed | SaveFailed

  function SaveIn(o: Oracle, s: State, item: Opportunity): (State, bool) {
    var stored := if item.id == 0 then item.(id := s.next) else item;
    var applied := o(s.saves) != LostBefore;
    (s.(items := if applied then s.items[stored.id := stored] else s.items,
        next := if applied && item.id == 0 then s.next + 1 else s.next,
        saves := s.saves + 1),
     o(s.saves) == Fine)
  }

  // The answers of the other services during one acceptance

  datatype Detail = LookupFailed | NoDetail | Found(candidate: bool)
  datatype Route = RouteFailed | RouteLost | NoPursuit | Routed(workflow: nat)
  datatype Intake = IntakeFailed | IntakeLost | Received(workflow: nat)

  datatype Services = Services(
    pursuits: bool, router: bool, workflows: bool, visible: bool, pursuitIdValid: bool, detail: Detail,
    metadataLinked: bool, route: Route, intake: Intake, linked: bool)

  predicate FromPursuit(item: Opportunity) {
    "pursuit" <= Text.Trim(item.sourceType)
  }

  predicate VisibleTo(item: Opportunity, owner: string, pursuitVisible: bool) {
    Text.Trim(owner) == "" || (Text.Trim(item.owner) == Text.Trim(owner) && pursuitVisible)
  }

  /** A workflow came back: its reference is persisted before anything else that may fail. */
  function Persist(o: Oracle, s: State, item: Opportunity, workflow: nat): (State, bool) {
    var t := s.(obtained := s.obtained + [item.id], lost := if o(s.saves) == LostBefore then s.lost + [item.id] else s.lost);
    SaveIn(o, t, item.(workflowId := Some(workflow)))
  }

  /** A workflow was made but its answer never came back. */
  function Orphaned(s: State, item: Opportunity): State {
    s.(obtained := s.obtained + [item.id], lost := s.lost + [item.id])
  }

  function Conclude(o: Oracle, s: State, item: Opportunity): (State, Result<Opportunity, Error>) {
    var (t, ok) := SaveIn(o, s, item.(status := Accepted));
    (t, if ok then Ok(item.(status := Accepted)) else Err(SaveFailed))
  }

  /** Either the acceptance is over, or it goes on with an item that has its reference. */
  datatype Stage = Over(state: State, reply: Result<Opportunity, Error>) | Go(state: State, item: Opportunity, routed: bool)

  function AcceptFromPursuit(o: Oracle, s: State, item: Opportunity, sv: Services): Stage {
    if !sv.pursuitIdValid || sv.detail.LookupFailed? || sv.detail.NoDetail? then Over(s, Err(ServiceFailed))
    else if !sv.detail.candidate then Go(s, item, false)
    else if item.workflowId.Some? && item.workflowId.value != 0 then Over(s, Err(NeedsReview))
    else if !sv.metadataLinked then Over(s, Err(ServiceFailed))
    else var (t, reply) := Conclude(o, s, item); Over(t, reply)
  }

  function AcceptThroughRouter(o: Oracle, s: State, item: Opportunity, sv: Services): Stage {
    if !sv.router then Over(s, Err(ServiceFailed))
    else if item.workflowId.Some? then Go(s, item, false)
    else match sv.route
      case RouteFailed => Over(s, Err(ServiceFailed))
      case NoPursuit => Over(s, Err(ServiceFailed))
      case RouteLost => Over(Orphaned(s, item), Err(ServiceFailed))
      case Routed(w) =>
        if w == 0 then var (t, reply) := Conclude(o, s, item); Over(t, reply)
        else
          var (t, ok) := Persist(o, s, item, w);
          if ok then Go(t, item.(workflowId := Some(w)), true) else Over(t, Err(SaveFailed))
  }

  function AcceptByIntake(o: Oracle, s: State, item: Opportunity, sv: Services): Stage {
    if item.workflowId.Some? then Go(s, item, false)
    else if !sv.workflows then Over(s, Err(ServiceFailed))
    else match sv.intake
      case IntakeFailed => Over(s, Err(ServiceFailed))
      case IntakeLost => Over(Orphaned(s, item), Err(ServiceFailed))
      case Received(w) =>
        if w == 0 then Over(s, Err(ServiceFailed))
        else
          var (t, ok) := Persist(o, s, item, w);
          if ok then Go(t, item.(workflowId := Some(w)), false) else Over(t, Err(SaveFailed))
  }

  function AcceptProposed(o: Oracle, s: State, item: Opportunity, sv: Services): (State, Result<Opportunity, Error>) {
    var first :=
      if FromPursuit(item) && sv.pursuits then AcceptFromPursuit(o, s, item, sv)
      else if !FromPursuit(item) && sv.pursuits then AcceptThroughRouter(o, s, item, sv)
      else Go(s, item, false);
    match first
    case Over(t, reply) => (t, reply)
    case Go(t, routedItem, routed) =>
      match AcceptByIntake(o, t, routedItem, sv)
      case Over(u, reply) => (u, reply)
      case Go(u, ready, _) =>
        if ready.workflowId.Some? && ready.workflowId.value != 0 && !routed && sv.pursuits && !sv.linked then (u, Err(ServiceFailed))
        else Conclude(o, u, ready)
  }

  function AcceptIn(o: Oracle, s: State, id: nat, owner: string, sv: Services): (State, Result<Opportunity, Error>) {
    if id !in s.items || !VisibleTo(s.items[id], owner, sv.visible) then (s, Err(NotFound))
    else
      var item := s.items[id];
      if item.status == Completed || item.status == Accepted then (s, Ok(item))
      else if item.status != Proposed then (s, Err(WrongState))
      else AcceptProposed(o, s, item, sv)
  }

  const HOUR := 3_600_000_000_000

  function DismissIn(o: Oracle, s: State, id: nat, owner: string, visible: bool, now: int, cooldownHours: nat)
    : (State, Result<Opportunity, Error>)
  {
    if id !in s.items || !VisibleTo(s.items[id], owner, visible) then (s, Err(NotFound))
    else
      var item := s.items[id];
      if item.status == Dismissed then (s, Ok(item))
      else if item.status != Proposed then (s, Err(WrongState))
      else
        var next := item.(status := Dismissed, cooldownUntil := Some(now + cooldownHours * HOUR));
        var (t, ok) := SaveIn(o, s, next);
        (t, if ok then Ok(next) else Err(SaveFailed))
  }

  const NOBODY := Services(false, false, false, false, false, LookupFailed, false, RouteFailed, IntakeFailed, false)

  /** Who may resolve a record: a caller without a name, or the record's own owner
      as long as its pursuit is visible. */
  predicate Heard(item: Opportunity, owner: string, visible: bool) {
    !Text.Blank(owner) ==> Text.Trim(item.owner) == Text.Trim(owner) && visible
  }

  /** Others are told that there is no such record, and nothing changes for them. */
  lemma NotFoundIffUnheard(o: Oracle, s: State, id: nat, owner: string, sv: Services, visible: bool, now: int, hours: nat)
    ensures var (t, reply) := AcceptIn(o, s, id, owner, sv);
      && (reply == Err(NotFound) <==> id !in s.items || !Heard(s.items[id], owner, sv.visible))
      && (reply == Err(NotFound) ==> t == s)
    ensures var (t, reply) := DismissIn(o, s, id, owner, visible, now, hours);
      && (reply == Err(NotFound) <==> id !in s.items || !Heard(s.items[id], owner, visible))
      && (reply == Err(NotFound) ==> t == s)
  {
    hide FromPursuit, SaveIn, Persist, Orphaned;
    Text.TrimIdempotent(owner);
  }

  class Service {
    const oracle: Oracle
    var items: map<nat, Opportunity>
    var next: nat
    var saves: nat
    ghost var obtained: seq<nat>
    ghost var lost: seq<nat>

    ghost function Now(): State
      reads this
    {
      State(items, next, saves, obtained, lost)
    }

    constructor (oracle: Oracle)
      ensures this.oracle == oracle && Now() == EMPTY
    {
      this.oracle := oracle;
      items, next, saves, obtained, lost := map[], 1, 0, [], [];
    }

    method SaveOpportunity(item: Opportunity) returns (ok: bool)
      modifies this
      ensures (Now(), ok) == SaveIn(oracle, old(Now()), item)
      ensures ok <==> oracle(old(saves)) == Fine
      ensures var id := if item.id == 0 then old(next) else item.id;
        items == if oracle(old(saves)) == LostBefore then old(items) else old(items)[id := item.(id := id)]
    {
      var fault := oracle(saves);
      saves := saves + 1;
      if fault != LostBefore {
        if item.id == 0 {
          items := items[next := item.(id := next)];
          next := next + 1;
        } else {
          items := items[item.id := item];
        }
      }
      ok := fault == Fine;
    }

    method PersistReference(item: Opportunity, workflow: nat) returns (ok: bool)
      modifies this
      ensures (Now(), ok) == Persist(oracle, old(Now()), item, workflow)
    {
      obtained := obtained + [item.id];
      if oracle(saves) == LostBefore { lost := lost + [item.id]; }
      ok := SaveOpportunity(item.(workflowId := Some(workflow)));
    }

    ghost method Orphan(item: Opportunity)
      modifies this
      ensures Now() == Orphaned(old(Now()), item)
    {
      obtained, lost := obtained + [item.id], lost + [item.id];
    }

    method Accept(id: nat, owner: string, sv: Services) returns (reply: Result<Opportunity, Error>)
      modifies this
      ensures (Now(), reply) == AcceptIn(oracle, old(Now()), id, owner, sv)
    {
      hide VisibleTo, FromPursuit, SaveIn, Persist;
      if id !in items || !VisibleTo(items[id], owner, sv.visible) { return Err(NotFound); }
      var item := items[id];
      if item.status == Completed || item.status == Accepted { return Ok(item); }
      if item.status != Proposed { return Err(WrongState); }
      var routed := false;
      if FromPursuit(item) && sv.pursuits {
        if !sv.pursuitIdValid || sv.detail.LookupFailed? || sv.detail.NoDetail? { return Err(ServiceFailed); }
        if sv.detail.candidate {
          if item.workflowId.Some? && item.workflowId.value != 0 { return Err(NeedsReview); }
          if !sv.metadataLinked { return Err(ServiceFailed); }
          item := item.(status := Accepted);
          var ok := SaveOpportunity(item);
          return if ok then Ok(item) else Err(SaveFailed);
        }
      }
      if !FromPursuit(item) && sv.pursuits {
        if !sv.router { return Err(ServiceFailed); }
        if item.workflowId.None? {
          match sv.route {
            case RouteFailed => return Err(ServiceFailed);
            case NoPursuit => return Err(ServiceFailed);
            case RouteLost => Orphan(item); return Err(ServiceFailed);
            case Routed(w) =>
              routed := true;
              if w == 0 {
                item := item.(status := Accepted);
                var ok := SaveOpportunity(item);
                return if ok then Ok(item) else Err(SaveFailed);
              }
              var ok := PersistReference(item, w);
              item := item.(workflowId := Some(w));
              if !ok { return Err(SaveFailed); }
          }
        }
      }
      if item.workflowId.None? {
        if !sv.workflows { return Err(ServiceFailed); }
        match sv.intake {
          case IntakeFailed => return Err(ServiceFailed);
          case IntakeLost => Orphan(item); return Err(ServiceFailed);
          case Received(w) =>
            if w == 0 { return Err(ServiceFailed); }
            var ok := PersistReference(item, w);
            item := item.(workflowId := Some(w));
            if !ok { return Err(SaveFailed); }
        }
      }
      if item.workflowId.Some? && item.workflowId.value != 0 && !routed {
        if sv.pursuits && !sv.linked { return Err(ServiceFailed); }
      }
      item := item.(status := Accepted);
      var ok := SaveOpportunity(item);
      return if ok then Ok(item) else Err(SaveFailed);
    }

    method Dismiss(id: nat, owner: string, visible: bool, now: int, cooldownHours: nat) returns (reply: Result<Opportunity, Error>)
      modifies this
      ensures (Now(), reply) == DismissIn(oracle, old(Now()), id, owner, visible, now, cooldownHours)
    {
      hide VisibleTo, SaveIn;
      if id !in items || !VisibleTo(items[id], owner, visible) { return Err(NotFound); }
      var item := items[id];
      if item.status == Dismissed { return Ok(item); }
      if item.status != Proposed { return Err(WrongState); }
      item := item.(status := Dismissed);
      item := item.(cooldownUntil := Some(now + cooldownHours * HOUR));
      var ok := SaveOpportunity(item);
      return if ok then Ok(item) else Err(SaveFailed);
    }
  }
}
