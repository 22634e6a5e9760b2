/** Delegation envelopes: the lifecycle a delegated task goes through and what
    validation demands of the envelope at every point of it. */
module Delegation {
  import opened Wrappers
  import opened Text

  /** Instants are counted from an arbitrary origin; 0 is the unset time. */
  const UNSET_TIME := 0

  datatype Status =
    | Proposed | Accepted | Rejected | InProgress | Blocked
    | Completed | Cancelled | Expired | Escalated | UnknownStatus

  datatype ExecutionMode = PlanOnly | Recommend | Draft | ExecuteLowRisk | UnknownMode
  datatype ApprovalMode = NotRequired | BeforeExecution | UnknownApproval
  datatype Access = Read | Write | UnknownAccess

  datatype AgentRef = AgentRef(id: string, role: string, authorityCeiling: int)
  datatype ResourceClaim = ResourceClaim(resource: string, access: Access, exclusive: bool)
  datatype Event = Event(from: Status, to: Status, actorId: string, reason: string, createdAt: int)

  datatype Envelope = Envelope(
    id: string, taskId: string, idempotencyKey: string, correlationId: string,
    principal: AgentRef, delegate: AgentRef,
    objective: string, successCriteria: seq<string>, stopConditions: seq<string>,
    allowedTools: seq<string>, prohibitedActions: seq<string>,
    resourceClaims: seq<ResourceClaim>,
    executionMode: ExecutionMode, approvalMode: ApprovalMode, requiredAuthority: int,
    humanApprovalRef: string, evidenceRefs: seq<string>,
    status: Status, createdAt: int, dueAt: int, updatedAt: int,
    statusReason: string, completionEvidence: seq<string>, transitions: seq<Event>)

  datatype Transition = Transition(
    to: Status, actorId: string, reason: string,
    completionEvidence: seq<string>, humanApprovalRef: string)

  datatype Error = NotAllowed | ActorOrReasonMissing | InvalidTime | EvidenceMissing | ApprovalMissing

  predicate Allowed(from: Status, to: Status) {
    match from
    case Proposed => to in {Accepted, Rejected, Cancelled, Expired, Escalated}
    case Accepted => to in {InProgress, Blocked, Cancelled, Expired, Escalated}
    case InProgress => to in {Blocked, Completed, Cancelled, Expired, Escalated}
    case Blocked => to in {InProgress, Cancelled, Expired, Escalated}
    case Escalated => to in {Accepted, InProgress, Blocked, Completed, Cancelled, Expired}
    case _ => false
  }

  predicate Terminal(status: Status) {
    status in {Completed, Cancelled, Rejected, Expired}
  }

  predicate Executing(status: Status) {
    status in {InProgress, Completed}
  }

  function TransitionDelegation(d: Envelope, t: Transition, now: int): Result<Envelope, Error> {
    var actor, reason := NormalizeID(t.actorId), NormalizeText(t.reason);
    var evidence := CanonicalStrings(t.completionEvidence);
    var approval := if Trim(t.humanApprovalRef) != "" then Trim(t.humanApprovalRef) else Trim(d.humanApprovalRef);
    var gated := d.approvalMode == BeforeExecution && Executing(t.to);
    if !Allowed(d.status, t.to) then Err(NotAllowed)
    else if actor == "" || reason == "" then Err(ActorOrReasonMissing)
    else if now == UNSET_TIME || now < d.createdAt then Err(InvalidTime)
    else if t.to == Completed && evidence == [] then Err(EvidenceMissing)
    else if gated && approval == "" then Err(ApprovalMissing)
    else Ok(d.(
      completionEvidence := if t.to == Completed then evidence else d.completionEvidence,
      humanApprovalRef := if gated then approval else d.humanApprovalRef,
      transitions := d.transitions + [Event(d.status, t.to, actor, reason, now)],
      status := t.to,
      statusReason := reason,
      updatedAt := now))
  }

  // Validation

  datatype Policy = Policy(
    schemaVersion: string, maximumAuthority: int, maximumMessageTTL: int, maximumPayloadBytes: int,
    messageTypes: nat, confidentialityLevels: nat, executionModes: seq<ExecutionMode>, requireRedaction: bool)

  /** Library checks: what counts as a UUID, and what the redactor would change. */
  datatype Scanner = Scanner(isUuid: string -> bool, isSecret: string -> bool)

  predicate ValidPolicy(p: Policy) {
    && Trim(p.schemaVersion) != "" && 0 <= p.maximumAuthority <= 10
    && p.maximumMessageTTL > 0 && p.maximumPayloadBytes > 0
    && p.messageTypes > 0 && p.confidentialityLevels > 0 && p.executionModes != []
  }

  predicate ValidAgent(a: AgentRef, maximumAuthority: int) {
    NormalizeID(a.id) != "" && NormalizeText(a.role) != "" && 0 <= a.authorityCeiling <= maximumAuthority
  }

  predicate ValidClaims(claims: seq<ResourceClaim>) {
    && (forall i :: 0 <= i < |claims| ==> NormalizeID(claims[i].resource) != "" && claims[i].access in {Read, Write})
    && (forall i, j :: 0 <= i < j < |claims| ==> NormalizeID(claims[i].resource) != NormalizeID(claims[j].resource))
  }

  /** The duplicate-claim loop accepts exactly the claim lists whose resources
      are named, accessible and pairwise different after normalisation. */
  method ValidateClaims(claims: seq<ResourceClaim>) returns (ok: bool)
    ensures ok <==> ValidClaims(claims)
  {
    hide NormalizeID;
    var seen: set<string> := {};
    for n := 0 to |claims|
      invariant forall i :: 0 <= i < n ==> NormalizeID(claims[i].resource) in seen
      invariant forall r :: r in seen ==> exists i :: 0 <= i < n && NormalizeID(claims[i].resource) == r
      invariant ValidClaims(claims[..n])
    {
      var resource := NormalizeID(claims[n].resource);
      assert claims[..n + 1] == claims[..n] + [claims[n]];
      if resource == "" || claims[n].access !in {Read, Write} { return false; }
      if resource in seen { return false; }
      seen := seen + {resource};
    }
    assert claims[..|claims|] == claims;
    return true;
  }

  /** The texts the redactor is run over. */
  function Texts(d: Envelope): seq<string> {
    [d.objective, d.statusReason, d.humanApprovalRef] + d.successCriteria + d.stopConditions
    + d.allowedTools + d.prohibitedActions + d.evidenceRefs + d.completionEvidence
  }

  predicate HasSecret(scan: Scanner, d: Envelope) {
    exists v :: v in Texts(d) && scan.isSecret(v)
  }

  predicate ValidDelegation(scan: Scanner, p: Policy, d: Envelope, now: int) {
    && ValidPolicy(p)
    && scan.isUuid(Trim(d.id)) && scan.isUuid(Trim(d.taskId))
    && scan.isUuid(Trim(d.idempotencyKey)) && scan.isUuid(Trim(d.correlationId))
    && ValidAgent(d.principal, p.maximumAuthority) && ValidAgent(d.delegate, p.maximumAuthority)
    && d.principal.id != d.delegate.id
    && NormalizeText(d.objective) != ""
    && CanonicalStrings(d.successCriteria) != [] && CanonicalStrings(d.stopConditions) != []
    && CanonicalStrings(d.prohibitedActions) != []
    && d.executionMode in p.executionModes
    && d.approvalMode in {NotRequired, BeforeExecution}
    && 0 <= d.requiredAuthority <= p.maximumAuthority
    && d.requiredAuthority <= d.principal.authorityCeiling && d.requiredAuthority <= d.delegate.authorityCeiling
    && (d.executionMode == ExecuteLowRisk && d.requiredAuthority > 2 ==> d.approvalMode == BeforeExecution)
    && ApprovalHeld(d)
    && d.status != UnknownStatus
    && d.createdAt != UNSET_TIME && d.dueAt != UNSET_TIME && d.dueAt > d.createdAt && d.dueAt > now
    && (d.updatedAt != UNSET_TIME ==> d.updatedAt >= d.createdAt)
    && ValidClaims(d.resourceClaims)
    && (p.requireRedaction ==> !HasSecret(scan, d))
  }

  /** Work that needs a human approval runs, or has run, only with a reference to one. */
  predicate ApprovalHeld(d: Envelope) {
    d.approvalMode == BeforeExecution && Executing(d.status) ==> Trim(d.humanApprovalRef) != ""
  }

  /** The secret scan of the only texts a transition can write. */
  predicate WritesNoSecret(scan: Scanner, d: Envelope) {
    && !scan.isSecret(d.statusReason) && !scan.isSecret(d.humanApprovalRef)
    && forall v :: v in d.completionEvidence ==> !scan.isSecret(v)
  }

  /** Everything about the envelope that is agreed when it is created. */
  predicate SameContract(a: Envelope, b: Envelope) {
    a == b.(humanApprovalRef := a.humanApprovalRef, status := a.status, updatedAt := a.updatedAt,
            statusReason := a.statusReason, completionEvidence := a.completionEvidence, transitions := a.transitions)
  }

  // Runs

  datatype Attempt = Attempt(transition: Transition, now: int)

  /** The envelope after the attempts; a refused attempt changes nothing. */
  function Run(d: Envelope, attempts: seq<Attempt>): Envelope {
    if attempts == [] then d
    else
      var before := Run(d, attempts[..|attempts| - 1]);
      var last := attempts[|attempts| - 1];
      match TransitionDelegation(before, last.transition, last.now)
      case Ok(after) => after
      case Err(_) => before
  }

  /** The events lead from one status to the other along allowed edges. */
  ghost predicate Path(from: Status, events: seq<Event>, to: Status) {
    if events == [] then from == to
    else
      var last := events[|events| - 1];
      last.to == to && Allowed(last.from, last.to) && Path(from, events[..|events| - 1], last.from)
  }

  predicate Signed(events: seq<Event>) {
    forall e :: e in events ==> e.actorId != "" && e.reason != ""
  }

  /** Nothing changed, or the reason and update time shown are the last event's. */
  predicate MirrorsLastEvent(d: Envelope, e: Envelope) {
    if |e.transitions| <= |d.transitions| then e == d
    else
      var last := e.transitions[|e.transitions| - 1];
      e.statusReason == last.reason && e.updatedAt == last.createdAt >= d.createdAt
  }

  /** What one accepted transition does to the envelope. */
  predicate Stepped(d: Envelope, e: Envelope) {
    && SameContract(e, d)
    && |e.transitions| == |d.transitions| + 1
    && var last := e.transitions[|d.transitions|];
    && e.transitions == d.transitions + [last]
    && last.from == d.status && last.to == e.status && Allowed(d.status, e.status)
    && last.actorId != "" && last.reason != ""
    && e.statusReason == last.reason && e.updatedAt == last.createdAt >= d.createdAt
  }

  lemma TransitionSteps(d: Envelope, t: Transition, now: int)
    ensures TransitionDelegation(d, t, now).Ok? ==> Stepped(d, TransitionDelegation(d, t, now).value)
  {
    hide NormalizeID, NormalizeText, CanonicalStrings, Trim;
  }

  /** What one accepted transition leaves behind at the approval and completion gates. */
  predicate GateKept(d: Envelope, e: Envelope) {
    && (d.approvalMode == BeforeExecution && Executing(e.status) ==> Trim(e.humanApprovalRef) != "")
    && (Trim(d.humanApprovalRef) != "" ==> Trim(e.humanApprovalRef) != "")
    && (e.status == Completed ==>
          e.completionEvidence != [] && CanonicalStrings(e.completionEvidence) == e.completionEvidence)
  }

  lemma TransitionGates(d: Envelope, t: Transition, now: int)
    ensures TransitionDelegation(d, t, now).Ok? ==> GateKept(d, TransitionDelegation(d, t, now).value)
  {
    TrimIdempotent(t.humanApprovalRef);
    TrimIdempotent(d.humanApprovalRef);
    CanonicalStringsIdempotent(t.completionEvidence);
    hide NormalizeID, NormalizeText, CanonicalStrings, Trim, Allowed;
  }

  /** The contract is untouched, the old log is a prefix of the new one, and the
      new events form a signed path of allowed edges that starts at the old status
      and ends at the current one. */
  ghost predicate ExtendsLog(d: Envelope, e: Envelope) {
    && SameContract(e, d)
    && d.transitions <= e.transitions
    && Path(d.status, e.transitions[|d.transitions|..], e.status)
    && Signed(e.transitions[|d.transitions|..])
    && MirrorsLastEvent(d, e)
  }

  lemma PathMore(from: Status, events: seq<Event>, last: Event)
    requires Path(from, events, last.from) && Allowed(last.from, last.to)
    ensures Path(from, events + [last], last.to)
  {
    hide Allowed;
    assert (events + [last])[..|events|] == events;
  }

  lemma SameContractStep(d: Envelope, before: Envelope, after: Envelope)
    requires SameContract(before, d) && SameContract(after, before)
    ensures SameContract(after, d)
  {}

  lemma ExtendsMore(d: Envelope, before: Envelope, after: Envelope)
    requires ExtendsLog(d, before) && Stepped(before, after)
    ensures ExtendsLog(d, after)
  {
    hide Allowed, Path, SameContract;
    SameContractStep(d, before, after);
    var n := |d.transitions|;
    var olds, last := before.transitions[n..], after.transitions[|before.transitions|];
    assert after.transitions[n..] == olds + [last];
    PathMore(d.status, olds, last);
    ContractKeepsCreation(d, before);
  }

  lemma ContractKeepsCreation(d: Envelope, e: Envelope)
    requires SameContract(e, d)
    ensures e.createdAt == d.createdAt
  {}

  /** So it is after any run. */
  lemma {:induction false} RunExtendsLog(d: Envelope, attempts: seq<Attempt>)
    ensures ExtendsLog(d, Run(d, attempts))
  {
    hide TransitionDelegation, ExtendsLog, Stepped;
    if attempts == [] {
      NothingExtended(d);
    } else {
      var n := |attempts| - 1;
      RunExtendsLog(d, attempts[..n]);
      var before, last := Run(d, attempts[..n]), attempts[n];
      TransitionSteps(before, last.transition, last.now);
      if TransitionDelegation(before, last.transition, last.now).Ok? { ExtendsMore(d, before, Run(d, attempts)); }
    }
  }

  lemma NothingExtended(d: Envelope)
    ensures ExtendsLog(d, d)
  {}

  lemma {:induction false} TerminalAbsorbs(d: Envelope, attempts: seq<Attempt>)
    requires Terminal(d.status)
    ensures Run(d, attempts) == d
  {
    hide NormalizeID, NormalizeText, CanonicalStrings, Trim;
    if attempts != [] { TerminalAbsorbs(d, attempts[..|attempts| - 1]); }
  }

  /** The approval gate and the completion rule hold at every point of a run:
      a run that enters execution leaves an approval reference behind for good,
      and a run that completes the work leaves its canonical evidence behind. */
  lemma {:induction false} RunKeepsGates(d: Envelope, attempts: seq<Attempt>)
    ensures var e := Run(d, attempts);
      |d.transitions| <= |e.transitions| && var added := e.transitions[|d.transitions|..];
      && (ApprovalHeld(d) ==> ApprovalHeld(e))
      && (d.approvalMode == BeforeExecution && (exists v :: v in added && Executing(v.to)) ==> Trim(e.humanApprovalRef) != "")
      && (Trim(d.humanApprovalRef) != "" ==> Trim(e.humanApprovalRef) != "")
      && (e.status == Completed && d.status != Completed ==>
            e.completionEvidence != [] && CanonicalStrings(e.completionEvidence) == e.completionEvidence)
  {
    hide TransitionDelegation, Trim, CanonicalStrings, SameContract;
    RunExtendsLog(d, attempts);
    if attempts != [] {
      var n := |attempts| - 1;
      var before, after := Run(d, attempts[..n]), Run(d, attempts);
      RunKeepsGates(d, attempts[..n]);
      RunExtendsLog(d, attempts[..n]);
      TransitionSteps(before, attempts[n].transition, attempts[n].now);
      TransitionGates(before, attempts[n].transition, attempts[n].now);
      if before != after {
        assert after.transitions[|d.transitions|..] ==
          before.transitions[|d.transitions|..] + [after.transitions[|before.transitions|]];
        ContractApproval(before, after);
      }
      ContractApproval(d, before);
    }
  }

  lemma ContractApproval(d: Envelope, e: Envelope)
    requires SameContract(e, d)
    ensures e.approvalMode == d.approvalMode && e.createdAt == d.createdAt
  {}

  lemma SecretOnlyWhereWritten(scan: Scanner, d: Envelope, e: Envelope)
    requires SameContract(e, d)
    ensures !HasSecret(scan, d) ==> (HasSecret(scan, e) <==> !WritesNoSecret(scan, e))
  {
    var contract := [d.objective] + d.successCriteria + d.stopConditions + d.allowedTools + d.prohibitedActions + d.evidenceRefs;
    forall x: Envelope, v | SameContract(x, d)
      ensures v in Texts(x) <==> v in contract || v == x.statusReason || v == x.humanApprovalRef || v in x.completionEvidence
    {}
    assert SameContract(d, d);
    if HasSecret(scan, e) && !HasSecret(scan, d) {
      var v :| v in Texts(e) && scan.isSecret(v);
      assert v !in Texts(d);
    }
    if !WritesNoSecret(scan, e) {
      var v :| scan.isSecret(v) && (v == e.statusReason || v == e.humanApprovalRef || v in e.completionEvidence);
      assert v in Texts(e);
    }
  }

  // What a run writes

  /** The transitions of the attempts that are not refused. */
  function Effective(d: Envelope, attempts: seq<Attempt>): seq<Transition> {
    if attempts == [] then []
    else
      var last := attempts[|attempts| - 1];
      Effective(d, attempts[..|attempts| - 1]) +
        if TransitionDelegation(Run(d, attempts[..|attempts| - 1]), last.transition, last.now).Ok? then [last.transition] else []
  }

  predicate Gated(mode: ApprovalMode, t: Transition) {
    mode == BeforeExecution && Executing(t.to)
  }

  ghost predicate AnyGated(mode: ApprovalMode, ts: seq<Transition>) {
    exists t :: t in ts && Gated(mode, t)
  }

  /** The approval references given where one is asked for. */
  function GivenRefs(mode: ApprovalMode, ts: seq<Transition>): seq<string> {
    if ts == [] then []
    else
      var last := ts[|ts| - 1];
      GivenRefs(mode, ts[..|ts| - 1]) + if Gated(mode, last) && !Blank(last.humanApprovalRef) then [Trim(last.humanApprovalRef)] else []
  }

  /** The last reason, the last approval reference given, the old one where it was
      asked for and none was given, and the evidence of a completion pass the scan
      once they are normalised. */
  ghost predicate GivesNoSecret(scan: Scanner, d: Envelope, ts: seq<Transition>) {
    ts != [] ==>
      var last, refs := ts[|ts| - 1], GivenRefs(d.approvalMode, ts);
      && !scan.isSecret(NormalizeText(last.reason))
      && (if refs != [] then !scan.isSecret(refs[|refs| - 1])
          else AnyGated(d.approvalMode, ts) ==> !scan.isSecret(Trim(d.humanApprovalRef)))
      && (last.to == Completed ==>
            forall v :: v in last.completionEvidence && !Blank(v) ==> !scan.isSecret(NormalizeText(v)))
  }

  /** What the run leaves in the three texts it can write. */
  ghost predicate Leaves(d: Envelope, e: Envelope, ts: seq<Transition>) {
    if ts == [] then e == d
    else
      var last, refs := ts[|ts| - 1], GivenRefs(d.approvalMode, ts);
      && e.approvalMode == d.approvalMode && e.status == last.to && e.statusReason == NormalizeText(last.reason)
      && e.humanApprovalRef == (
           if refs != [] then refs[|refs| - 1]
           else if AnyGated(d.approvalMode, ts) then Trim(d.humanApprovalRef)
           else d.humanApprovalRef)
      && e.completionEvidence == (if last.to == Completed then CanonicalStrings(last.completionEvidence) else d.completionEvidence)
  }

  lemma LeavesMore(d: Envelope, before: Envelope, ts: seq<Transition>, t: Transition, now: int)
    requires Leaves(d, before, ts) && TransitionDelegation(before, t, now).Ok?
    ensures Leaves(d, TransitionDelegation(before, t, now).value, ts + [t])
  {
    hide NormalizeID, NormalizeText, CanonicalStrings, Trim, Blank, AnyGated;
    TrimIdempotent(d.humanApprovalRef);
    TrimIdempotent(t.humanApprovalRef);
    assert (ts + [t])[..|ts|] == ts;
    if GivenRefs(d.approvalMode, ts) != [] {
      RefsAreTrimmed(d.approvalMode, ts);
      RefsWereGated(d.approvalMode, ts);
    }
    AnyGatedMore(d.approvalMode, ts, t);
  }

  lemma AnyGatedMore(mode: ApprovalMode, ts: seq<Transition>, t: Transition)
    ensures !AnyGated(mode, []) && (AnyGated(mode, ts + [t]) <==> AnyGated(mode, ts) || Gated(mode, t))
  {
    hide Gated;
    assert t in ts + [t];
    if AnyGated(mode, ts) {
      var x :| x in ts && Gated(mode, x);
      assert x in ts + [t];
    }
  }

  lemma {:induction false} RefsAreTrimmed(mode: ApprovalMode, ts: seq<Transition>)
    ensures forall r :: r in GivenRefs(mode, ts) ==> Trim(r) == r
  {
    hide Trim, Blank;
    if ts != [] {
      RefsAreTrimmed(mode, ts[..|ts| - 1]);
      TrimIdempotent(ts[|ts| - 1].humanApprovalRef);
    }
  }

  lemma {:induction false} RefsWereGated(mode: ApprovalMode, ts: seq<Transition>)
    requires GivenRefs(mode, ts) != []
    ensures AnyGated(mode, ts)
  {
    hide Trim, Blank;
    var n := |ts| - 1;
    if Gated(mode, ts[n]) { assert ts[n] in ts; }
    else {
      RefsWereGated(mode, ts[..n]);
      var t :| t in ts[..n] && Gated(mode, t);
      assert t in ts;
    }
  }

  lemma {:induction false} RunLeaves(d: Envelope, attempts: seq<Attempt>)
    ensures Leaves(d, Run(d, attempts), Effective(d, attempts))
  {
    hide TransitionDelegation, Leaves;
    if attempts == [] {
      NothingLeft(d);
    } else {
      var n := |attempts| - 1;
      RunLeaves(d, attempts[..n]);
      var before, last := Run(d, attempts[..n]), attempts[n];
      if TransitionDelegation(before, last.transition, last.now).Ok? {
        LeavesMore(d, before, Effective(d, attempts[..n]), last.transition, last.now);
      } else {
        assert Effective(d, attempts) == Effective(d, attempts[..n]);
      }
    }
  }

  lemma NothingLeft(d: Envelope)
    ensures Leaves(d, d, [])
  {}

  lemma SecretOnlyWhereGiven(scan: Scanner, d: Envelope, e: Envelope, ts: seq<Transition>)
    requires Leaves(d, e, ts) && SameContract(e, d) && !HasSecret(scan, d)
    ensures WritesNoSecret(scan, e) <==> GivesNoSecret(scan, d, ts)
  {
    hide NormalizeText, Trim, Blank, HasSecret, CanonicalStrings;
    OldTextsPass(scan, d);
    if ts != [] { CanonicalStringsListsTexts(ts[|ts| - 1].completionEvidence); }
  }

  lemma OldTextsPass(scan: Scanner, d: Envelope)
    requires !HasSecret(scan, d)
    ensures WritesNoSecret(scan, d)
  {
    forall v | v == d.statusReason || v == d.humanApprovalRef || v in d.completionEvidence ensures !scan.isSecret(v) {
      assert v in Texts(d);
    }
  }

  /** A valid envelope stays valid through any run until it falls due, if and only if
      what the accepted transitions give it passes the secret scan. */
  lemma {:induction false} RunKeepsValidity(scan: Scanner, p: Policy, d: Envelope, attempts: seq<Attempt>, before: int, after: int)
    requires ValidDelegation(scan, p, d, before)
    ensures ValidDelegation(scan, p, Run(d, attempts), after) <==>
      d.dueAt > after && (p.requireRedaction ==> GivesNoSecret(scan, d, Effective(d, attempts)))
  {
    hide Trim, CanonicalStrings, NormalizeID, NormalizeText, ValidClaims, HasSecret, Run, Leaves, WritesNoSecret, GivesNoSecret;
    RunExtendsLog(d, attempts);
    RunKeepsGates(d, attempts);
    RunKeepsStatusKnown(d, attempts);
    RunLeaves(d, attempts);
    SecretOnlyWhereWritten(scan, d, Run(d, attempts));
    if p.requireRedaction { SecretOnlyWhereGiven(scan, d, Run(d, attempts), Effective(d, attempts)); }
  }

  lemma {:induction false} RunKeepsStatusKnown(d: Envelope, attempts: seq<Attempt>)
    requires d.status != UnknownStatus
    ensures Run(d, attempts).status != UnknownStatus
  {
    hide TransitionDelegation;
    if attempts != [] {
      var n := |attempts| - 1;
      RunKeepsStatusKnown(d, attempts[..n]);
      TransitionSteps(Run(d, attempts[..n]), attempts[n].transition, attempts[n].now);
    }
  }

  // Which transitions are accepted, and what they write, said over the fields

  /** The edges of the lifecycle, by their target. */
  predicate MayEnter(to: Status, from: Status) {
    match to
    case Accepted => from == Proposed || from == Escalated
    case Rejected => from == Proposed
    case InProgress => from == Accepted || from == Blocked || from == Escalated
    case Blocked => from == Accepted || from == InProgress || from == Escalated
    case Completed => from == InProgress || from == Escalated
    case Escalated => from == Proposed || from == Accepted || from == InProgress || from == Blocked
    case Cancelled => from == Proposed || from == Accepted || from == InProgress || from == Blocked || from == Escalated
    case Expired => from == Proposed || from == Accepted || from == InProgress || from == Blocked || from == Escalated
    case _ => false
  }

  /** A transition is accepted if and only if its edge exists, somebody gives a reason
      at a time from the creation on, a completion brings evidence, and execution
      under approval has a reference, now or from before; then it is logged. */
  lemma TransitionAcceptedIff(d: Envelope, t: Transition, now: int)
    ensures TransitionDelegation(d, t, now).Ok? <==>
      && MayEnter(t.to, d.status) && !Blank(t.actorId) && !Blank(t.reason) && now != 0 && d.createdAt <= now
      && (t.to == Completed ==> exists v :: v in t.completionEvidence && !Blank(v))
      && (d.approvalMode == BeforeExecution && (t.to == InProgress || t.to == Completed) ==>
            !Blank(t.humanApprovalRef) || !Blank(d.humanApprovalRef))
    ensures TransitionDelegation(d, t, now).Ok? ==>
      var e := TransitionDelegation(d, t, now).value;
      && e.transitions == d.transitions + [Event(d.status, t.to, NormalizeID(t.actorId), NormalizeText(t.reason), now)]
      && e.status == t.to && e.updatedAt == now
  {
    hide NormalizeID, NormalizeText, CanonicalStrings, Trim, Blank;
    NormalizeIDEmptyIffBlank(t.actorId);
    NormalizeTextEmptyIffBlank(t.reason);
    TrimIdempotent(t.humanApprovalRef);
    TrimIdempotent(d.humanApprovalRef);
    EvidenceIffGiven(t.completionEvidence);
  }

  lemma EvidenceIffGiven(values: seq<string>)
    ensures CanonicalStrings(values) == [] <==> forall v :: v in values ==> Blank(v)
  {
    hide NormalizeText, CanonicalStrings, Blank;
    CanonicalStringsListsTexts(values);
    if v :| v in values && !Blank(v) { assert NormalizeText(v) in CanonicalStrings(values); }
    if CanonicalStrings(values) != [] { assert CanonicalStrings(values)[0] in NonBlankTexts(values); }
  }

  /** In every run each new entry of the log follows an edge of the lifecycle. */
  lemma {:induction false} LogFollowsEdges(d: Envelope, attempts: seq<Attempt>)
    ensures var e := Run(d, attempts);
      |d.transitions| <= |e.transitions|
      && forall i :: |d.transitions| <= i < |e.transitions| ==> MayEnter(e.transitions[i].to, e.transitions[i].from)
  {
    hide NormalizeID, NormalizeText, CanonicalStrings, Trim, Blank, MayEnter, Allowed;
    if attempts != [] {
      var n := |attempts| - 1;
      LogFollowsEdges(d, attempts[..n]);
      TransitionAcceptedIff(Run(d, attempts[..n]), attempts[n].transition, attempts[n].now);
    }
  }

  /** Accepted if and only if: a sound policy, canonical identities, two different
      agents who may, an objective with criteria, stop conditions and prohibitions,
      a permitted mode and authority, approval where the risk or the mode asks for
      it, times in order and not yet due, clean claims and, where asked, no secret. */
  lemma DelegationAcceptedIff(scan: Scanner, p: Policy, d: Envelope, now: int)
    ensures ValidDelegation(scan, p, d, now) <==>
      && !Blank(p.schemaVersion) && 0 <= p.maximumAuthority <= 10 && p.maximumMessageTTL >= 1 && p.maximumPayloadBytes >= 1
      && p.messageTypes >= 1 && p.confidentialityLevels >= 1 && |p.executionModes| >= 1
      && (forall id :: id in {d.id, d.taskId, d.idempotencyKey, d.correlationId} ==> scan.isUuid(Trim(id)))
      && (forall a: AgentRef :: a == d.principal || a == d.delegate ==>
            !Blank(a.id) && !Blank(a.role) && 0 <= a.authorityCeiling <= p.maximumAuthority && d.requiredAuthority <= a.authorityCeiling)
      && d.principal.id != d.delegate.id && !Blank(d.objective)
      && (exists v :: v in d.successCriteria && !Blank(v)) && (exists v :: v in d.stopConditions && !Blank(v))
      && (exists v :: v in d.prohibitedActions && !Blank(v))
      && d.executionMode in p.executionModes && d.approvalMode != UnknownApproval && 0 <= d.requiredAuthority <= p.maximumAuthority
      && (d.executionMode == ExecuteLowRisk && d.requiredAuthority > 2 ==> d.approvalMode == BeforeExecution)
      && (d.approvalMode == BeforeExecution && (d.status == InProgress || d.status == Completed) ==> !Blank(d.humanApprovalRef))
      && d.status != UnknownStatus && d.createdAt != 0 && d.dueAt != 0 && d.createdAt < d.dueAt && now < d.dueAt
      && (d.updatedAt == 0 || d.createdAt <= d.updatedAt)
      && (forall i :: 0 <= i < |d.resourceClaims| ==> !Blank(d.resourceClaims[i].resource) && d.resourceClaims[i].access != UnknownAccess)
      && (forall i, j :: 0 <= i < j < |d.resourceClaims| ==>
            NormalizeID(d.resourceClaims[i].resource) != NormalizeID(d.resourceClaims[j].resource))
      && (p.requireRedaction ==> forall v :: v in Texts(d) ==> !scan.isSecret(v))
  {
    hide Trim, Blank, NormalizeID, NormalizeText, CanonicalStrings, Texts;
    TrimIdempotent(p.schemaVersion);
    TrimIdempotent(d.humanApprovalRef);
    NormalizeTextEmptyIffBlank(d.objective);
    AgentNamed(d.principal);
    AgentNamed(d.delegate);
    EvidenceIffGiven(d.successCriteria);
    EvidenceIffGiven(d.stopConditions);
    EvidenceIffGiven(d.prohibitedActions);
    ClaimsNamed(d.resourceClaims);
  }

  lemma AgentNamed(a: AgentRef)
    ensures (NormalizeID(a.id) == "" <==> Blank(a.id)) && (NormalizeText(a.role) == "" <==> Blank(a.role))
  {
    NormalizeIDEmptyIffBlank(a.id);
    NormalizeTextEmptyIffBlank(a.role);
  }

  lemma ClaimsNamed(claims: seq<ResourceClaim>)
    ensures forall i :: 0 <= i < |claims| ==> (NormalizeID(claims[i].resource) == "" <==> Blank(claims[i].resource))
  {
    hide NormalizeID, Blank;
    forall i | 0 <= i < |claims| ensures NormalizeID(claims[i].resource) == "" <==> Blank(claims[i].resource) {
      NormalizeIDEmptyIffBlank(claims[i].resource);
    }
  }
}
