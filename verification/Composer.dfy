/** Composing one completed run: three keyed downstream writes that may fail or be
    repeated at any point, from a history that goes on growing. */
module Composer {
  import opened Wrappers
  import opened Monitor
  import Text

  datatype State = Achieved | OnTrack | Regression | ReviewRequired | InsufficientEvidence
  datatype Status = Open | Resolved
  datatype Risk = Low | Medium | High

  datatype Evaluation = Evaluation(state: State, asOf: int, reviewRequired: bool)

  /** A stored evaluation; the time it was recorded differs from attempt to attempt. */
  datatype EvaluationRecord = EvaluationRecord(evaluation: Evaluation, recordedAt: int)

  /** The context pinned when the run completed. */
  datatype Snapshot = Snapshot(outcomeRevision: nat, auditDigest: string, attention: string, capturedAt: int)

  datatype EvaluationRequest = EvaluationRequest(outcomeRevision: nat, auditDigest: string, observations: seq<Composed>, asOf: int)

  /** The monitor's identity, the same for all its runs; it stands for its digest. */
  datatype LoopKey = LoopKey(scope: Scope, targetId: string, outcomeId: string, indicatorId: string)

  datatype OpenLoop = OpenLoop(
    id: string, owner: string, key: LoopKey, status: Status, risk: Risk, impact: real, urgency: real, confidence: real,
    observedAt: int, lastActivityAt: int, deadline: Option<int>, reviewRequired: bool, evidence: EvaluationRecord)

  datatype DecisionRequest = DecisionRequest(now: int, attention: string, signals: seq<OpenLoop>)

  /** What is fixed for all attempts: the run, its pinned snapshot, the outcome
      revision the snapshot names, and the evaluator, a function of its request. */
  datatype Job = Job(shape: Shape, run: Run, window: Window, snapshot: Snapshot, evaluate: EvaluationRequest -> Evaluation)

  function CompositionKey(prefix: string, digest: string): string {
    prefix + "-" + Text.Trim(digest)
  }

  /** Runs with different digests never share a key. */
  lemma KeysIsolateRuns(prefix: string, digest: string, other: string)
    ensures CompositionKey(prefix, digest) == CompositionKey(prefix, other) <==> Text.Trim(digest) == Text.Trim(other)
  {
    hide Text.Trim;
    var k, l := CompositionKey(prefix, digest), CompositionKey(prefix, other);
    assert k[|prefix| + 1..] == Text.Trim(digest) && l[|prefix| + 1..] == Text.Trim(other);
  }

  function EvaluationKey(j: Job): string { CompositionKey("ambient-evaluation", j.run.digest) }
  function SignalKey(j: Job): string { CompositionKey("ambient-signal", j.run.digest) }
  function DecisionKey(j: Job): string { CompositionKey("ambient-decision", j.run.digest) }

  function Request(j: Job, observations: seq<Composed>): EvaluationRequest {
    EvaluationRequest(j.snapshot.outcomeRevision, j.snapshot.auditDigest, observations, j.run.finishedAt)
  }

  function StatusOf(state: State): (Status, Risk, real, real, real) {
    match state
    case Achieved => (Resolved, Low, 0.2, 0.1, 0.95)
    case OnTrack => (Open, Low, 0.55, 0.4, 0.95)
    case Regression => (Open, High, 0.95, 0.9, 0.95)
    case ReviewRequired => (Open, Medium, 0.8, 0.7, 0.9)
    case InsufficientEvidence => (Open, Medium, 0.65, 0.55, 0.85)
  }

  function LoopOf(j: Job, record: EvaluationRecord): OpenLoop {
    var e := record.evaluation;
    var (status, risk, impact, urgency, confidence) := StatusOf(e.state);
    OpenLoop(CompositionKey("ambient-monitor", j.run.digest), j.run.scope.owner,
             LoopKey(j.run.scope, j.run.targetId, j.run.outcomeId, j.run.indicatorId),
             status, risk, impact, urgency, confidence, e.asOf, j.run.finishedAt,
             if status == Open && j.window.end > e.asOf then Some(j.window.end) else None, e.reviewRequired, record)
  }

  function Decision(j: Job, record: EvaluationRecord): DecisionRequest {
    DecisionRequest(j.snapshot.capturedAt, j.snapshot.attention, [LoopOf(j, record)])
  }

  // What the signal says, over the fields of run and evaluation

  predicate Reflects(j: Job, record: EvaluationRecord, s: OpenLoop) {
    var e := record.evaluation;
    && (s.status == Resolved <==> e.state == Achieved)
    && (s.risk == High <==> e.state == Regression) && (s.risk == Low <==> e.state == Achieved || e.state == OnTrack)
    && s.deadline == (if e.state != Achieved && e.asOf < j.window.end then Some(j.window.end) else None)
    && s.id == "ambient-monitor-" + Text.Trim(j.run.digest) && s.owner == j.run.scope.owner && s.key.scope == j.run.scope
    && s.key.targetId == j.run.targetId && s.key.outcomeId == j.run.outcomeId && s.key.indicatorId == j.run.indicatorId
    && s.observedAt == e.asOf && s.lastActivityAt == j.run.finishedAt && s.reviewRequired == e.reviewRequired && s.evidence == record
  }

  lemma LoopReflects(j: Job, record: EvaluationRecord)
    ensures Reflects(j, record, LoopOf(j, record))
  {
    hide Text.Trim;
    assert "ambient-monitor" + "-" == "ambient-monitor-";
  }

  /** How much a state asks for. */
  function Rank(state: State): nat {
    match state
    case Achieved => 0 case OnTrack => 1 case InsufficientEvidence => 2 case ReviewRequired => 3 case Regression => 4
  }

  /** The worse the state, the greater impact and urgency, whatever the run; and a
      definite state is surer than a review, and that than missing evidence. */
  lemma SignalsFollowStates(j: Job, k: Job, a: EvaluationRecord, b: EvaluationRecord)
    ensures var s, t, x, y := LoopOf(j, a), LoopOf(k, b), a.evaluation.state, b.evaluation.state;
      && (s.impact < t.impact <==> Rank(x) < Rank(y)) && (s.urgency < t.urgency <==> Rank(x) < Rank(y))
      && 0.0 < s.urgency < s.impact < 1.0
      && (s.confidence < t.confidence <==>
            (x == InsufficientEvidence && y != InsufficientEvidence) || (x == ReviewRequired && y != ReviewRequired && y != InsufficientEvidence))
      && 0.8 < s.confidence < 1.0
  {
    hide CompositionKey;
  }

  // A keyed store: the first request under a key is stored with its result, an
  // equal one is answered with that result, a different one is a conflict.

  type Entries<Q, R> = map<string, (Q, R)>

  function Put<Q(==), R>(entries: Entries<Q, R>, key: string, request: Q, result: R): (Entries<Q, R>, Option<R>) {
    if key in entries then (entries, if entries[key].0 == request then Some(entries[key].1) else None)
    else (entries[key := (request, result)], Some(result))
  }

  class Sink<Q(==), R> {
    var entries: map<string, (Q, R)>

    constructor ()
      ensures entries == map[]
    { entries := map[]; }

    method Write(key: string, request: Q, result: R) returns (r: Option<R>)
      modifies this
      ensures (entries, r) == Put(old(entries), key, request, result)
      ensures entries == if key in old(entries) then old(entries) else old(entries)[key := (request, result)]
      ensures r == if entries[key].0 == request then Some(entries[key].1) else None
    {
      if key in entries {
        if entries[key].0 != request { return None; }
        return Some(entries[key].1);
      }
      entries := entries[key := (request, result)];
      return Some(result);
    }
  }

  datatype Composing = Refused(fault: Monitor.Fault) | NotInHistory | Conflict | Done(disableTarget: bool)

  /** Compose run by itself, with every downstream service answering. */
  method Compose(j: Job, history: seq<Observation>, evaluations: Sink<EvaluationRequest, EvaluationRecord>,
                 signals: Sink<OpenLoop, ()>, decisions: Sink<DecisionRequest, ()>, recordedAt: int) returns (outcome: Composing)
    requires |history| <= MAX_HISTORY
    modifies evaluations, signals, decisions
    ensures var list := Listed(history, j.run.finishedAt);
      var request := Request(j, Composition(j.run, j.window, list));
      && (outcome.Refused? <==> !Intact(j.shape, j.run, list))
      && (outcome.NotInHistory? <==> Intact(j.shape, j.run, list) && !HasCurrent(j.run, list))
      && (outcome.Refused? || outcome.NotInHistory? ==>
            evaluations.entries == old(evaluations.entries) && signals.entries == old(signals.entries) && decisions.entries == old(decisions.entries))
      && (Intact(j.shape, j.run, list) && HasCurrent(j.run, list) && EvaluationKey(j) !in old(evaluations.entries)
          && SignalKey(j) !in old(signals.entries) && DecisionKey(j) !in old(decisions.entries)
          ==> outcome == Done(j.run.finishedAt >= j.window.end))
      && (outcome.Done? ==>
            && EvaluationKey(j) in evaluations.entries && evaluations.entries[EvaluationKey(j)].0 == request
            && SignalKey(j) in signals.entries && DecisionKey(j) in decisions.entries
            && var record := evaluations.entries[EvaluationKey(j)].1;
               && signals.entries[SignalKey(j)].0 == LoopOf(j, record) && decisions.entries[DecisionKey(j)].0 == Decision(j, record)
               && Reflects(j, record, signals.entries[SignalKey(j)].0))
  {
    hide Composition, LoopOf, Intact, HasCurrent, Text.Trim, Reflects;
    var records := ListObservationsAt(history, j.run.finishedAt, MAX_HISTORY);
    ListedMembers(history, j.run.finishedAt);
    var composed, found := ComposeObservations(j.shape, j.run, j.window, records);
    if composed.Err? { return Refused(composed.error); }
    if !found { return NotInHistory; }
    var request := Request(j, composed.value);
    var record := evaluations.Write(EvaluationKey(j), request, EvaluationRecord(j.evaluate(request), recordedAt));
    if record.None? { return Conflict; }
    LoopReflects(j, record.value);
    var recorded := signals.Write(SignalKey(j), LoopOf(j, record.value), ());
    if recorded.None? { return Conflict; }
    var decided := decisions.Write(DecisionKey(j), Decision(j, record.value), ());
    if decided.None? { return Conflict; }
    return Done(j.run.finishedAt >= j.window.end);
  }

  // Any number of attempts, crashing anywhere, while the history grows

  datatype Pc =
    | ToEvaluate(observations: seq<Composed>)
    | ToSignal(record: EvaluationRecord)
    | ToDecide(record: EvaluationRecord)
    | Succeeded
    | Failed(conflict: bool)

  /** A write can fail or its answer be lost, before or after it took effect. */
  datatype Loss = Answered | LostBefore | LostAfter

  datatype Sent =
    | SentEvaluation(key: string, evaluation: EvaluationRequest)
    | SentSignal(key: string, signal: OpenLoop)
    | SentDecision(key: string, decision: DecisionRequest)

  /** sent holds every request an attempt made, whether or not it arrived. */
  datatype System = System(
    history: seq<Observation>,
    evaluations: Entries<EvaluationRequest, EvaluationRecord>, signals: Entries<OpenLoop, ()>, decisions: Entries<DecisionRequest, ()>,
    attempts: map<nat, Pc>, sent: seq<Sent>)

  datatype Action =
    | Observe(x: Observation)
    | Start(who: nat)
    | Evaluate(who: nat, recordedAt: int, loss: Loss)
    | Signal(who: nat, loss: Loss)
    | Decide(who: nat, loss: Loss)

  predicate Enabled(s: System, a: Action) {
    match a
    case Observe(_) => true
    case Start(who) => who !in s.attempts
    case Evaluate(who, _, _) => who in s.attempts && s.attempts[who].ToEvaluate?
    case Signal(who, _) => who in s.attempts && s.attempts[who].ToSignal?
    case Decide(who, _) => who in s.attempts && s.attempts[who].ToDecide?
  }

  function Reading(j: Job, history: seq<Observation>): Pc {
    var list := Listed(history, j.run.finishedAt);
    if Intact(j.shape, j.run, list) && HasCurrent(j.run, list) then ToEvaluate(Composition(j.run, j.window, list)) else Failed(false)
  }

  function After<R>(loss: Loss, answer: Option<R>, next: R -> Pc): Pc {
    if loss != Answered then Failed(false) else match answer case None => Failed(true) case Some(r) => next(r)
  }

  function Step(j: Job, s: System, a: Action): System
    requires Enabled(s, a)
  {
    match a
    case Observe(x) => s.(history := AppendBounded(s.history, x))
    case Start(who) => s.(attempts := s.attempts[who := Reading(j, s.history)])
    case Evaluate(who, recordedAt, loss) =>
      var request := Request(j, s.attempts[who].observations);
      var (stored, answer) := Put(s.evaluations, EvaluationKey(j), request, EvaluationRecord(j.evaluate(request), recordedAt));
      s.(evaluations := if loss == LostBefore then s.evaluations else stored,
         sent := s.sent + [SentEvaluation(EvaluationKey(j), request)],
         attempts := s.attempts[who := After(loss, answer, r => ToSignal(r))])
    case Signal(who, loss) =>
      var record := s.attempts[who].record;
      var (stored, answer) := Put(s.signals, SignalKey(j), LoopOf(j, record), ());
      s.(signals := if loss == LostBefore then s.signals else stored,
         sent := s.sent + [SentSignal(SignalKey(j), LoopOf(j, record))],
         attempts := s.attempts[who := After(loss, answer, _ => ToDecide(record))])
    case Decide(who, loss) =>
      var record := s.attempts[who].record;
      var (stored, answer) := Put(s.decisions, DecisionKey(j), Decision(j, record), ());
      s.(decisions := if loss == LostBefore then s.decisions else stored,
         sent := s.sent + [SentDecision(DecisionKey(j), Decision(j, record))],
         attempts := s.attempts[who := After(loss, answer, _ => Succeeded)])
  }

  /** An action that is not enabled does not happen. */
  function Run(j: Job, s: System, actions: seq<Action>): System {
    if actions == [] then s
    else
      var before, last := Run(j, s, actions[..|actions| - 1]), actions[|actions| - 1];
      if Enabled(before, last) then Step(j, before, last) else before
  }

  function Observed(actions: seq<Action>): seq<Observation> {
    if actions == [] then []
    else
      var last := actions[|actions| - 1];
      Observed(actions[..|actions| - 1]) + if last.Observe? then [last.x] else []
  }

  /** Before the first attempt: nothing is stored under the run's keys. */
  predicate Fresh(j: Job, s: System) {
    && |s.history| <= MAX_HISTORY && s.attempts == map[] && s.sent == []
    && EvaluationKey(j) !in s.evaluations && SignalKey(j) !in s.signals && DecisionKey(j) !in s.decisions
  }

  /** Nothing observed later belongs to the run, and no record of it is evicted. */
  predicate Undisturbed(j: Job, history: seq<Observation>, later: seq<Observation>) {
    && (forall k :: 0 <= k < |later| ==> !Relevant(j.run, j.window, later[k]))
    && (forall i :: 0 <= i < |history| && i < Evicted(history, later) ==> !Relevant(j.run, j.window, history[i]))
  }

  // What every step keeps

  ghost predicate Stored(j: Job, s: System, first: System, request: EvaluationRequest) {
    && (EvaluationKey(j) in s.evaluations ==> s.evaluations[EvaluationKey(j)].0 == request)
    && (SignalKey(j) in s.signals ==>
          EvaluationKey(j) in s.evaluations && s.signals[SignalKey(j)].0 == LoopOf(j, s.evaluations[EvaluationKey(j)].1))
    && (DecisionKey(j) in s.decisions ==>
          SignalKey(j) in s.signals && EvaluationKey(j) in s.evaluations
          && s.decisions[DecisionKey(j)].0 == Decision(j, s.evaluations[EvaluationKey(j)].1))
    && s.evaluations - {EvaluationKey(j)} == first.evaluations
    && s.signals - {SignalKey(j)} == first.signals
    && s.decisions - {DecisionKey(j)} == first.decisions
  }

  ghost predicate Attempts(j: Job, s: System, request: EvaluationRequest) {
    forall who :: who in s.attempts ==>
      match s.attempts[who]
      case ToEvaluate(observations) => Request(j, observations) == request
      case ToSignal(record) => EvaluationKey(j) in s.evaluations && s.evaluations[EvaluationKey(j)].1 == record
      case ToDecide(record) =>
        EvaluationKey(j) in s.evaluations && s.evaluations[EvaluationKey(j)].1 == record && SignalKey(j) in s.signals
      case Succeeded => DecisionKey(j) in s.decisions
      case Failed(conflict) => !conflict
  }

  ghost predicate Expected(j: Job, s: System, sent: Sent, request: EvaluationRequest) {
    match sent
    case SentEvaluation(key, q) => key == EvaluationKey(j) && q == request
    case SentSignal(key, q) =>
      key == SignalKey(j) && EvaluationKey(j) in s.evaluations && q == LoopOf(j, s.evaluations[EvaluationKey(j)].1)
    case SentDecision(key, q) =>
      key == DecisionKey(j) && EvaluationKey(j) in s.evaluations && q == Decision(j, s.evaluations[EvaluationKey(j)].1)
  }

  ghost predicate Requests(j: Job, s: System, request: EvaluationRequest) {
    forall i :: 0 <= i < |s.sent| ==> Expected(j, s, s.sent[i], request)
  }

  ghost predicate Invariant(j: Job, s: System, first: System, request: EvaluationRequest) {
    Stored(j, s, first, request) && Attempts(j, s, request) && Requests(j, s, request)
  }

  function FirstRequest(j: Job, history: seq<Observation>): EvaluationRequest {
    Request(j, Composition(j.run, j.window, Listed(history, j.run.finishedAt)))
  }

  lemma StepKeepsStored(j: Job, s: System, a: Action, first: System, request: EvaluationRequest)
    requires Enabled(s, a) && Invariant(j, s, first, request)
    ensures Stored(j, Step(j, s, a), first, request)
  {
    hide LoopOf, Decision, Composition, CompositionKey, Reading, Requests;
  }

  lemma StepKeepsAttempts(j: Job, s: System, a: Action, first: System, request: EvaluationRequest)
    requires Enabled(s, a) && Invariant(j, s, first, request)
    requires a.Start? ==> Reading(j, s.history).Failed? || FirstRequest(j, s.history) == request
    ensures Attempts(j, Step(j, s, a), request)
  {
    hide LoopOf, Decision, Composition, CompositionKey, Intact, HasCurrent, Requests;
  }

  lemma RecordStays(j: Job, s: System, a: Action)
    requires Enabled(s, a)
    ensures EvaluationKey(j) in s.evaluations ==>
      EvaluationKey(j) in Step(j, s, a).evaluations && Step(j, s, a).evaluations[EvaluationKey(j)] == s.evaluations[EvaluationKey(j)]
  {
    hide LoopOf, Decision, Composition, CompositionKey, Reading;
  }

  /** What a step sends, given what its attempt knows. */
  lemma StepSends(j: Job, s: System, a: Action, request: EvaluationRequest)
    requires Enabled(s, a) && Attempts(j, s, request)
    requires EvaluationKey(j) in s.evaluations ==> s.evaluations[EvaluationKey(j)].0 == request
    ensures var t := Step(j, s, a);
      || t.sent == s.sent
      || t.sent == s.sent + [SentEvaluation(EvaluationKey(j), request)]
      || (EvaluationKey(j) in t.evaluations
          && (|| t.sent == s.sent + [SentSignal(SignalKey(j), LoopOf(j, t.evaluations[EvaluationKey(j)].1))]
              || t.sent == s.sent + [SentDecision(DecisionKey(j), Decision(j, t.evaluations[EvaluationKey(j)].1))]))
  {
    hide LoopOf, Decision, Composition, CompositionKey, Reading;
  }

  lemma StepKeepsRequests(j: Job, s: System, a: Action, first: System, request: EvaluationRequest)
    requires Enabled(s, a) && Invariant(j, s, first, request)
    ensures Requests(j, Step(j, s, a), request)
  {
    hide LoopOf, Decision, CompositionKey, Step, Attempts;
    var t := Step(j, s, a);
    StoredRequest(j, s, first, request);
    StepSends(j, s, a, request);
    RecordStays(j, s, a);
    forall i | 0 <= i < |t.sent| ensures Expected(j, t, t.sent[i], request) {
      if i < |s.sent| { assert t.sent[i] == s.sent[i] && Expected(j, s, s.sent[i], request); }
    }
  }

  lemma StoredRequest(j: Job, s: System, first: System, request: EvaluationRequest)
    requires Stored(j, s, first, request)
    ensures EvaluationKey(j) in s.evaluations ==> s.evaluations[EvaluationKey(j)].0 == request
  {
    hide LoopOf, Decision, CompositionKey;
  }

  lemma ObserveAppends(j: Job, s: System, a: Action)
    requires Enabled(s, a)
    ensures Step(j, s, a).history == if a.Observe? then AppendBounded(s.history, a.x) else s.history
  {
    hide LoopOf, Decision, Composition, CompositionKey, Reading, AppendBounded;
  }

  lemma {:induction false} HistoryIsAppended(j: Job, s: System, actions: seq<Action>)
    ensures Run(j, s, actions).history == AppendAll(s.history, Observed(actions))
  {
    hide Step, AppendBounded;
    if actions != [] {
      var n := |actions| - 1;
      HistoryIsAppended(j, s, actions[..n]);
      var xs := Observed(actions[..n]);
      if Enabled(Run(j, s, actions[..n]), actions[n]) { ObserveAppends(j, Run(j, s, actions[..n]), actions[n]); }
      if actions[n].Observe? { assert (xs + [actions[n].x])[..|xs|] == xs; }
      assert xs + [] == xs;
    }
  }

  lemma UndisturbedBefore(j: Job, history: seq<Observation>, later: seq<Observation>, n: nat)
    requires n <= |later| && Undisturbed(j, history, later)
    ensures Undisturbed(j, history, later[..n])
  {
    hide Relevant;
  }

  /** While the history is undisturbed, every attempt composes the first list. */
  lemma ReadingIsStable(j: Job, s: System, first: System, actions: seq<Action>)
    requires |first.history| <= MAX_HISTORY && s == Run(j, first, actions) && Undisturbed(j, first.history, Observed(actions))
    ensures FirstRequest(j, s.history) == FirstRequest(j, first.history)
  {
    hide Composition, Listed, Evicted, Relevant;
    HistoryIsAppended(j, first, actions);
    UndisturbedComposes(j.run, j.window, first.history, Observed(actions));
  }

  lemma FreshInvariant(j: Job, first: System, request: EvaluationRequest)
    requires Fresh(j, first)
    ensures Invariant(j, first, first, request)
  {
    hide LoopOf, Decision, CompositionKey;
    assert first.evaluations - {EvaluationKey(j)} == first.evaluations;
    assert first.signals - {SignalKey(j)} == first.signals;
    assert first.decisions - {DecisionKey(j)} == first.decisions;
  }

  lemma {:induction false} RunKeepsInvariant(j: Job, first: System, actions: seq<Action>)
    requires Fresh(j, first) && Undisturbed(j, first.history, Observed(actions))
    ensures Invariant(j, Run(j, first, actions), first, FirstRequest(j, first.history))
  {
    hide Step, Enabled, Stored, Attempts, Requests, FirstRequest, Undisturbed, Reading;
    var request := FirstRequest(j, first.history);
    if actions == [] {
      FreshInvariant(j, first, request);
    } else {
      var n := |actions| - 1;
      var xs := Observed(actions[..n]);
      assert Observed(actions)[..|xs|] == xs;
      UndisturbedBefore(j, first.history, Observed(actions), |xs|);
      RunKeepsInvariant(j, first, actions[..n]);
      var s := Run(j, first, actions[..n]);
      if Enabled(s, actions[n]) {
        ReadingIsStable(j, s, first, actions[..n]);
        StepKeepsStored(j, s, actions[n], first, request);
        StepKeepsAttempts(j, s, actions[n], first, request);
        StepKeepsRequests(j, s, actions[n], first, request);
      }
    }
  }

  // The theorems

  /** However many attempts fail or crash, and whatever is observed that does not
      belong to the run, all attempts send the same requests under the same keys,
      none meets a conflict, and other runs' entries are untouched. */
  lemma RetriesAreExactReplays(j: Job, first: System, actions: seq<Action>)
    requires Fresh(j, first) && Undisturbed(j, first.history, Observed(actions))
    ensures var s := Run(j, first, actions);
      && (forall a, b :: 0 <= a < |s.sent| && 0 <= b < |s.sent| ==>
            (s.sent[a].SentEvaluation? && s.sent[b].SentEvaluation? ==> s.sent[a] == s.sent[b])
            && (s.sent[a].SentSignal? && s.sent[b].SentSignal? ==> s.sent[a] == s.sent[b])
            && (s.sent[a].SentDecision? && s.sent[b].SentDecision? ==> s.sent[a] == s.sent[b]))
      && (forall who :: who in s.attempts ==> s.attempts[who] != Failed(true))
      && s.evaluations - {EvaluationKey(j)} == first.evaluations
      && s.signals - {SignalKey(j)} == first.signals
      && s.decisions - {DecisionKey(j)} == first.decisions
  {
    hide FirstRequest, Undisturbed, Run, LoopOf, Decision, CompositionKey;
    RunKeepsInvariant(j, first, actions);
  }

  /** One success leaves exactly one evaluation, one signal and one decision of the
      run, the signal made from the stored evaluation and the decision from both. */
  lemma SuccessLeavesOneOfEach(j: Job, first: System, actions: seq<Action>, who: nat)
    requires Fresh(j, first) && Undisturbed(j, first.history, Observed(actions))
    requires who in Run(j, first, actions).attempts && Run(j, first, actions).attempts[who] == Succeeded
    ensures var s := Run(j, first, actions);
      && s.evaluations.Keys == first.evaluations.Keys + {EvaluationKey(j)}
      && s.signals.Keys == first.signals.Keys + {SignalKey(j)}
      && s.decisions.Keys == first.decisions.Keys + {DecisionKey(j)}
      && s.evaluations[EvaluationKey(j)].0 == FirstRequest(j, first.history)
      && s.signals[SignalKey(j)].0 == LoopOf(j, s.evaluations[EvaluationKey(j)].1)
      && s.decisions[DecisionKey(j)].0 == Decision(j, s.evaluations[EvaluationKey(j)].1)
  {
    hide FirstRequest, Undisturbed, Run, LoopOf, Decision, CompositionKey, Requests;
    RunKeepsInvariant(j, first, actions);
    var s := Run(j, first, actions);
    assert s.evaluations.Keys == (s.evaluations - {EvaluationKey(j)}).Keys + {EvaluationKey(j)};
    assert s.signals.Keys == (s.signals - {SignalKey(j)}).Keys + {SignalKey(j)};
    assert s.decisions.Keys == (s.decisions - {DecisionKey(j)}).Keys + {DecisionKey(j)};
  }

  /** What a success leaves, said over the fields: the evaluation asks for the pinned
      revision as of the finish, on the observations made within the window and
      known by then; the signal reflects the stored evaluation; and the decision asks
      about that signal on the pinned attention. */
  lemma SuccessSays(j: Job, first: System, actions: seq<Action>, who: nat)
    requires Fresh(j, first) && Undisturbed(j, first.history, Observed(actions))
    requires who in Run(j, first, actions).attempts && Run(j, first, actions).attempts[who] == Succeeded
    ensures var s := Run(j, first, actions);
      var digest := Text.Trim(j.run.digest);
      var a, b, d := "ambient-evaluation-" + digest, "ambient-signal-" + digest, "ambient-decision-" + digest;
      && a in s.evaluations && b in s.signals && d in s.decisions
      && var (request, record) := s.evaluations[a];
         && request.outcomeRevision == j.snapshot.outcomeRevision && request.auditDigest == j.snapshot.auditDigest
         && request.asOf == j.run.finishedAt
         && (forall c :: c in request.observations <==> exists x :: x in first.history && Shows(c, x, j.run, j.window))
         && Reflects(j, record, s.signals[b].0)
         && s.decisions[d].0.now == j.snapshot.capturedAt && s.decisions[d].0.attention == j.snapshot.attention
         && s.decisions[d].0.signals == [s.signals[b].0]
  {
    hide Undisturbed, Run, LoopOf, Composition, Listed, Intact, Reflects, Fresh, Shows, Text.Trim;
    SuccessLeavesOneOfEach(j, first, actions, who);
    KeysAre(j);
    var list := Listed(first.history, j.run.finishedAt);
    CompositionSays(j.shape, j.run, j.window, list);
    ListedMembers(first.history, j.run.finishedAt);
    forall c, x ensures x in list && Shows(c, x, j.run, j.window) <==> x in first.history && Shows(c, x, j.run, j.window) {
      ShownIsOld(c, x, j.run, j.window);
    }
    LoopReflects(j, Run(j, first, actions).evaluations[EvaluationKey(j)].1);
  }

  lemma KeysAre(j: Job)
    ensures var digest := Text.Trim(j.run.digest);
      && EvaluationKey(j) == "ambient-evaluation-" + digest && SignalKey(j) == "ambient-signal-" + digest
      && DecisionKey(j) == "ambient-decision-" + digest
  {
    hide Text.Trim;
    assert "ambient-evaluation" + "-" == "ambient-evaluation-" && "ambient-signal" + "-" == "ambient-signal-"
      && "ambient-decision" + "-" == "ambient-decision-";
  }

  lemma ShownIsOld(c: Composed, x: Observation, run: Monitor.Run, window: Window)
    ensures Shows(c, x, run, window) ==> x.content.recordedAt <= run.finishedAt
  {}

  /** And only then: once the run's evaluation is stored, an attempt that accepts
      its history is refused by its own key if and only if a record of the run was
      evicted since, or one that is still there was appended. */
  lemma RetryConflictsIff(j: Job, s: System, items: seq<Observation>, xs: seq<Observation>, who: nat, recordedAt: int)
    requires |items| <= MAX_HISTORY && s.history == AppendAll(items, xs) && who !in s.attempts
    requires EvaluationKey(j) in s.evaluations && s.evaluations[EvaluationKey(j)].0 == FirstRequest(j, items)
    requires Intact(j.shape, j.run, Listed(items + xs, j.run.finishedAt))
    requires HasCurrent(j.run, Listed(s.history, j.run.finishedAt))
    ensures var t := Step(j, s, Start(who));
      && Enabled(t, Evaluate(who, recordedAt, Answered))
      && (Step(j, t, Evaluate(who, recordedAt, Answered)).attempts[who] == Failed(true) <==> Disturbed(j.run, j.window, items, xs))
  {
    hide Composition, Listed, Intact, HasCurrent, Disturbed, CompositionKey, AppendAll;
    TwoReads(j.shape, j.run, items, xs);
    CompositionStableIff(j.shape, j.run, j.window, items, xs);
  }

  // A run in which it happens: the history is full, and the observation that comes
  // after the run finished evicts the oldest record of the run.

  function Letters(n: nat): string {
    seq(n, i => 'a')
  }

  function Item(i: nat): Observation {
    var content := Content(Scope("o", "w"), "t", "c", "n", "k", 0.0, 1, 1, Letters(i));
    Observation(Letters(i), content, content)
  }

  function FullHistory(): seq<Observation> {
    seq(MAX_HISTORY, i requires 0 <= i => Item(i))
  }

  function Late(): Observation {
    var content := Item(MAX_HISTORY).content.(recordedAt := 3);
    Observation(Letters(MAX_HISTORY), content, content)
  }

  const BUSY := Job(
    Shape((x: Observation) => true),
    Monitor.Run(Scope("o", "w"), "t", "c", "n", "k", 2, Letters(1), Item(1).content, "d"),
    Window(0, 5), Snapshot(1, "a", "s", 2), (request: EvaluationRequest) => Evaluation(OnTrack, 2, false))

  lemma DistinctItems(i: nat, k: nat)
    requires i != k
    ensures Item(i).id != Item(k).id && Item(i).digest != Item(k).digest
  {
    assert |Letters(i)| == i && |Letters(k)| == k;
  }

  lemma FullHistoryIsIntact()
    ensures |FullHistory()| == MAX_HISTORY && Intact(BUSY.shape, BUSY.run, FullHistory())
    ensures FullHistory()[0] == Item(0) && FullHistory()[1] == Item(1)
  {
    hide Item;
    var h := FullHistory();
    forall i | 0 <= i < |h| ensures Acceptable(BUSY.shape, BUSY.run, h[i]) { ItemIsAcceptable(i); }
    forall i, k | 0 <= i < k < |h| ensures h[i].id != h[k].id && h[i].digest != h[k].digest { DistinctItems(i, k); }
  }

  lemma ItemIsAcceptable(i: nat)
    ensures Acceptable(BUSY.shape, BUSY.run, Item(i)) && Relevant(BUSY.run, BUSY.window, Item(i))
    ensures IsCurrent(BUSY.run, Item(1)) && Item(i).content.recordedAt <= BUSY.run.finishedAt
  {}

  /** What the two attempts read. */
  lemma BusyReads()
    ensures var h, cutoff := FullHistory(), BUSY.run.finishedAt;
      && |h| == MAX_HISTORY && AppendAll(h, [Late()]) == AppendBounded(h, Late())
      && Intact(BUSY.shape, BUSY.run, Listed(h, cutoff)) && Intact(BUSY.shape, BUSY.run, Listed(h + [Late()], cutoff))
      && HasCurrent(BUSY.run, Listed(h, cutoff)) && HasCurrent(BUSY.run, Listed(AppendBounded(h, Late()), cutoff))
      && Disturbed(BUSY.run, BUSY.window, h, [Late()])
  {
    hide Listed, Item, Intact, HasCurrent, Relevant, IsCurrent, FullHistory;
    var h, cutoff := FullHistory(), BUSY.run.finishedAt;
    FullHistoryIsIntact();
    ItemIsAcceptable(0);
    ItemIsAcceptable(1);
    ListedStaysIntact(BUSY.shape, BUSY.run, h, cutoff);
    ListedSnoc(h, Late(), cutoff);
    assert [] + Listed(h, cutoff) == Listed(h, cutoff);
    assert [Late()][..0] == [] && AppendAll(h, []) == h;
    var t := AppendBounded(h, Late());
    assert t == (h + [Late()])[1..] && t[0] == h[1];
    ListedMembers(h, cutoff);
    ListedMembers(t, cutoff);
    CurrentIsThere(Listed(h, cutoff));
    CurrentIsThere(Listed(t, cutoff));
    assert Relevant(BUSY.run, BUSY.window, h[0]) && 0 < Evicted(h, [Late()]);
  }

  lemma CurrentIsThere(list: seq<Observation>)
    requires Item(1) in list
    ensures HasCurrent(BUSY.run, list)
  {
    ItemIsAcceptable(1);
    var i :| 0 <= i < |list| && list[i] == Item(1);
  }

  lemma RunOne(j: Job, s: System, actions: seq<Action>, a: Action)
    requires Enabled(Run(j, s, actions), a)
    ensures Run(j, s, actions + [a]) == Step(j, Run(j, s, actions), a)
  {
    hide Step, Enabled;
    assert (actions + [a])[..|actions|] == actions;
  }

  lemma RetryCanConflict()
    ensures exists j: Job, first: System, actions: seq<Action>, who: nat ::
      Fresh(j, first) && who in Run(j, first, actions).attempts && Run(j, first, actions).attempts[who] == Failed(true)
  {
    hide Composition, Listed, Intact, HasCurrent, Disturbed, CompositionKey, AppendAll, AppendBounded, FullHistory, Run;
    BusyReads();
    var first := System(FullHistory(), map[], map[], map[], map[], []);
    NothingRun(BUSY, first);
    var s := FirstAttempt(first);
    var actions := [Start(0), Evaluate(0, 9, Answered)];
    RunOne(BUSY, first, actions, Observe(Late()));
    var t := Step(BUSY, s, Observe(Late()));
    RetryConflictsIff(BUSY, t, FullHistory(), [Late()], 1, 9);
    RunOne(BUSY, first, actions + [Observe(Late())], Start(1));
    RunOne(BUSY, first, actions + [Observe(Late())] + [Start(1)], Evaluate(1, 9, Answered));
  }

  lemma NothingRun(j: Job, s: System)
    ensures Run(j, s, []) == s
  {}

  lemma FirstAttempt(first: System) returns (s: System)
    requires first == System(FullHistory(), map[], map[], map[], map[], [])
    ensures s == Run(BUSY, first, [Start(0), Evaluate(0, 9, Answered)])
    ensures s.history == FullHistory() && s.attempts.Keys == {0} && EvaluationKey(BUSY) in s.evaluations
    ensures s.evaluations[EvaluationKey(BUSY)].0 == FirstRequest(BUSY, FullHistory())
  {
    hide Composition, Listed, Intact, HasCurrent, Disturbed, CompositionKey, FullHistory, Run;
    BusyReads();
    NothingRun(BUSY, first);
    RunOne(BUSY, first, [], Start(0));
    assert [] + [Start(0)] == [Start(0)];
    RunOne(BUSY, first, [Start(0)], Evaluate(0, 9, Answered));
    assert [Start(0)] + [Evaluate(0, 9, Answered)] == [Start(0), Evaluate(0, 9, Answered)];
    s := Run(BUSY, first, [Start(0), Evaluate(0, 9, Answered)]);
  }

  // Retry delays

  const MINUTE := 60_000_000_000
  const HOUR := 60 * MINUTE

  function Doublings(n: nat): nat {
    if n == 0 then 1 else 2 * Doublings(n - 1)
  }

  function RetryDelay(attempt: int): int {
    var n := if attempt < 1 then 1 else attempt;
    var wanted := Doublings(n - 1) * MINUTE;
    if wanted < HOUR then wanted else HOUR
  }

  lemma {:induction false} DoublingsGrow(m: nat, n: nat)
    requires m <= n
    ensures 1 <= Doublings(m) <= Doublings(n)
  {
    if n > 0 {
      if m < n { DoublingsGrow(m, n - 1); } else { DoublingsGrow(m - 1, n - 1); }
    }
  }

  /** The loop doubles from a minute and stops at an hour: it computes the capped power. */
  method CompositionRetryDelay(attempt: int) returns (delay: int)
    ensures delay == RetryDelay(attempt)
  {
    var bounded := if attempt < 1 then 1 else attempt;
    delay := MINUTE;
    var n := 1;
    while n < bounded && delay < HOUR
      invariant 1 <= n <= bounded
      invariant delay == if Doublings(n - 1) * MINUTE < HOUR then Doublings(n - 1) * MINUTE else HOUR
      decreases bounded - n
    {
      delay := delay * 2;
      if delay > HOUR { delay := HOUR; }
      n := n + 1;
    }
    DoublingsGrow(n - 1, bounded - 1);
  }

  /** Delays never shrink, start at a minute and reach the hour from the seventh attempt on. */
  lemma RetryDelaysGrow(m: int, n: int)
    requires m <= n
    ensures MINUTE <= RetryDelay(m) <= RetryDelay(n) <= HOUR
    ensures RetryDelay(n) == HOUR <==> n >= 7
    ensures RetryDelay(1) == 60_000_000_000 && (1 <= n < 6 ==> RetryDelay(n + 1) == 2 * RetryDelay(n))
  {
    var a, b := if m < 1 then 1 else m, if n < 1 then 1 else n;
    DoublingsGrow(a - 1, b - 1);
    assert Doublings(5) == 32 && Doublings(6) == 64;
    if b >= 7 { DoublingsGrow(6, b - 1); } else { DoublingsGrow(b - 1, 5); }
  }
}
