/** What happens to a detected conflict: review, proposals, escalation and the
    resolution that its event log ends with. */
module ConflictLifecycle {
  import opened Wrappers
  import opened Text

  const UNSET_TIME := 0

  datatype State = Detected | UnderReview | ResolutionProposed | Resolved | Escalated | Dismissed | Unknown

  const HUMAN_REVIEW := "human_review"

  datatype Event = Event(from: State, to: State, actorId: string, strategy: string, rationale: string, createdAt: int)

  /** Identity and participants never change and are one field here. */
  datatype Conflict = Conflict(
    subject: string, state: State, detectedAt: int, updatedAt: int, resolution: string, notes: string, events: seq<Event>)

  datatype Transition = Transition(to: State, actorId: string, strategy: string, rationale: string)

  datatype Error = NotAllowed | ActorOrRationaleMissing | InvalidTime | StrategyMissing | HumanReviewMissing

  predicate Allowed(from: State, to: State) {
    match from
    case Detected => to in {UnderReview, ResolutionProposed, Escalated, Dismissed}
    case UnderReview => to in {ResolutionProposed, Escalated, Dismissed}
    case ResolutionProposed => to in {Resolved, UnderReview, Escalated, Dismissed}
    case Escalated => to in {UnderReview, ResolutionProposed, Resolved, Dismissed}
    case _ => false
  }

  predicate ValidStrategy(strategy: string) {
    strategy in {"serialize", "reassign", "merge", HUMAN_REVIEW, "accept_one"}
  }

  function TransitionConflict(c: Conflict, t: Transition, now: int): Result<Conflict, Error> {
    var actor, rationale := NormalizeID(t.actorId), NormalizeText(t.rationale);
    if !Allowed(c.state, t.to) then Err(NotAllowed)
    else if actor == "" || rationale == "" then Err(ActorOrRationaleMissing)
    else if now == UNSET_TIME || now < c.detectedAt then Err(InvalidTime)
    else if (t.to == ResolutionProposed || t.to == Resolved) && !ValidStrategy(t.strategy) then Err(StrategyMissing)
    else if t.to == Escalated && t.strategy != HUMAN_REVIEW then Err(HumanReviewMissing)
    else Ok(c.(
      events := c.events + [Event(c.state, t.to, actor, t.strategy, rationale, now)],
      state := t.to,
      updatedAt := now,
      resolution := if t.strategy != "" then t.strategy else c.resolution,
      notes := rationale))
  }

  datatype Attempt = Attempt(transition: Transition, now: int)

  /** The conflict after the attempts; a refused attempt changes nothing. */
  function Run(c: Conflict, attempts: seq<Attempt>): Conflict {
    if attempts == [] then c
    else
      var before, last := Run(c, attempts[..|attempts| - 1]), attempts[|attempts| - 1];
      match TransitionConflict(before, last.transition, last.now)
      case Ok(after) => after
      case Err(_) => before
  }

  predicate JustDetected(c: Conflict) {
    c.state == Detected && c.events == [] && c.resolution == ""
  }

  /** The last strategy anybody gave. */
  function LastStrategy(events: seq<Event>): string {
    if events == [] then ""
    else if events[|events| - 1].strategy != "" then events[|events| - 1].strategy
    else LastStrategy(events[..|events| - 1])
  }

  function StateAfter(events: seq<Event>): State {
    if events == [] then Detected else events[|events| - 1].to
  }

  /** One entry of the log: an allowed, signed and timely edge from where the log
      stood, with the strategy that its target demands. */
  predicate GoodEvent(e: Event, before: seq<Event>, detectedAt: int) {
    && e.from == StateAfter(before) && Allowed(e.from, e.to)
    && e.actorId != "" && e.rationale != "" && e.createdAt >= detectedAt
    && (e.to == ResolutionProposed || e.to == Resolved ==> ValidStrategy(e.strategy))
    && (e.to == Escalated ==> e.strategy == HUMAN_REVIEW)
  }

  ghost predicate GoodLog(events: seq<Event>, detectedAt: int) {
    forall i :: 0 <= i < |events| ==> GoodEvent(events[i], events[..i], detectedAt)
  }

  /** The visible state is the replay of the log. */
  ghost predicate Replays(c: Conflict) {
    GoodLog(c.events, c.detectedAt) && c.state == StateAfter(c.events) && c.resolution == LastStrategy(c.events)
  }

  lemma GoodLogMore(events: seq<Event>, e: Event, detectedAt: int)
    requires GoodLog(events, detectedAt) && GoodEvent(e, events, detectedAt)
    ensures GoodLog(events + [e], detectedAt)
  {
    hide GoodEvent;
    var all := events + [e];
    forall i | 0 <= i < |all| ensures GoodEvent(all[i], all[..i], detectedAt) {
      if i < |events| { assert all[..i] == events[..i]; } else { assert all[..i] == events; }
    }
  }

  lemma TransitionReplays(c: Conflict, t: Transition, now: int)
    requires Replays(c) && TransitionConflict(c, t, now).Ok?
    ensures var d := TransitionConflict(c, t, now).value;
      Replays(d) && d.detectedAt == c.detectedAt && d.subject == c.subject && c.events <= d.events
  {
    hide NormalizeID, NormalizeText, Allowed, ValidStrategy;
    var e := Event(c.state, t.to, NormalizeID(t.actorId), t.strategy, NormalizeText(t.rationale), now);
    GoodLogMore(c.events, e, c.detectedAt);
    assert (c.events + [e])[..|c.events|] == c.events;
  }

  /** After any run from detection, state and resolution are what replaying the
      append-only log gives: resolution is the last strategy anybody gave. */
  lemma {:induction false} RunReplaysLog(c: Conflict, attempts: seq<Attempt>)
    requires Replays(c)
    ensures var d := Run(c, attempts);
      Replays(d) && d.detectedAt == c.detectedAt && d.subject == c.subject && c.events <= d.events
  {
    hide TransitionConflict, Replays;
    if attempts != [] {
      var n := |attempts| - 1;
      RunReplaysLog(c, attempts[..n]);
      var before, last := Run(c, attempts[..n]), attempts[n];
      if TransitionConflict(before, last.transition, last.now).Ok? { TransitionReplays(before, last.transition, last.now); }
    }
  }

  /** A conflict is only resolved out of a proposal or an escalation, never straight
      from detection or review, and then its resolution is a known strategy; while
      it is escalated the resolution is human review. */
  lemma ResolvedOnlyAfterProposal(c: Conflict, attempts: seq<Attempt>)
    requires JustDetected(c)
    ensures var d := Run(c, attempts);
      && (d.state == Resolved ==>
            && |d.events| >= 2 && d.events[|d.events| - 2].to in {ResolutionProposed, Escalated}
            && ValidStrategy(d.resolution) && d.resolution == d.events[|d.events| - 1].strategy)
      && (d.state == ResolutionProposed ==> ValidStrategy(d.resolution))
      && (d.state == Escalated ==> d.resolution == HUMAN_REVIEW)
  {
    hide Run, Replays, ValidStrategy;
    DetectedReplays(c);
    RunReplaysLog(c, attempts);
    LastEventTells(Run(c, attempts));
  }

  lemma DetectedReplays(c: Conflict)
    requires JustDetected(c)
    ensures Replays(c)
  {}

  lemma LastEventTells(d: Conflict)
    requires Replays(d)
    ensures d.state == Resolved ==>
      |d.events| >= 2 && d.events[|d.events| - 2].to in {ResolutionProposed, Escalated}
      && ValidStrategy(d.resolution) && d.resolution == d.events[|d.events| - 1].strategy
    ensures d.state == ResolutionProposed ==> ValidStrategy(d.resolution)
    ensures d.state == Escalated ==> d.resolution == HUMAN_REVIEW
  {
    hide GoodEvent;
    if d.events != [] {
      var n := |d.events| - 1;
      assert GoodEvent(d.events[n], d.events[..n], d.detectedAt);
      StrategyDemanded(d.events[n], d.events[..n], d.detectedAt);
    }
  }

  lemma StrategyDemanded(e: Event, before: seq<Event>, detectedAt: int)
    requires GoodEvent(e, before, detectedAt)
    ensures e.to == Resolved ==> StateAfter(before) in {ResolutionProposed, Escalated}
    ensures e.to == ResolutionProposed || e.to == Resolved ==> ValidStrategy(e.strategy) && e.strategy != ""
    ensures e.to == Escalated ==> e.strategy == HUMAN_REVIEW
  {}

  lemma {:induction false} SettledIsFinal(c: Conflict, attempts: seq<Attempt>)
    requires c.state == Resolved || c.state == Dismissed
    ensures Run(c, attempts) == c
  {
    hide NormalizeID, NormalizeText;
    if attempts != [] { SettledIsFinal(c, attempts[..|attempts| - 1]); }
  }

  predicate Sane(resolution: string) {
    resolution == "" || ValidStrategy(resolution)
  }

  /** The strategy is only checked where one is demanded: a move back to review or
      a dismissal leaves a known resolution if and only if it gave none or a known one. */
  lemma UncheckedStrategyIsKept(c: Conflict, t: Transition, now: int)
    requires Sane(c.resolution) && TransitionConflict(c, t, now).Ok?
    ensures Sane(TransitionConflict(c, t, now).value.resolution) <==> t.strategy == "" || ValidStrategy(t.strategy)
    ensures t.to != UnderReview && t.to != Dismissed ==> Sane(TransitionConflict(c, t, now).value.resolution)
  {
    hide NormalizeID, NormalizeText;
    if t.to != UnderReview && t.to != Dismissed { assert t.to in {ResolutionProposed, Resolved, Escalated}; }
  }

  lemma UnknownStrategyCanStay()
    ensures exists c, t, now ::
      (JustDetected(c) && TransitionConflict(c, t, now).Ok? && !Sane(TransitionConflict(c, t, now).value.resolution))
  {
    var c := Conflict("s", Detected, 1, 1, "", "", []);
    var t := Transition(Dismissed, "a", "none", "b");
    assert NormalizeText("b") == "b" by { Line("b"); }
    Line("a");
    assert !Sane(TransitionConflict(c, t, 1).value.resolution);
  }

  lemma Line(word: string)
    requires |word| == 1 && !IsBlank(word[0])
    ensures NormalizeText(word) == word && NormalizeID(word) != ""
  {
    FieldsOfJoin([word]);
    FieldsTrim(word);
    assert Join([word], " ") == word && Join([word], "-") == word;
    assert |Lower(word)| == 1;
  }

  // Which transitions are accepted, said over the fields

  /** The edges of the lifecycle, by their target. */
  predicate MayEnter(to: State, from: State) {
    match to
    case UnderReview => from == Detected || from == ResolutionProposed || from == Escalated
    case ResolutionProposed => from == Detected || from == UnderReview || from == Escalated
    case Resolved => from == ResolutionProposed || from == Escalated
    case Escalated => from == Detected || from == UnderReview || from == ResolutionProposed
    case Dismissed => from == Detected || from == UnderReview || from == ResolutionProposed || from == Escalated
    case _ => false
  }

  /** A transition is accepted if and only if its edge exists, somebody gives a
      rationale at a time from the detection on, a proposal or resolution names a
      known strategy, and an escalation asks for human review; then it is logged. */
  lemma TransitionAcceptedIff(c: Conflict, t: Transition, now: int)
    ensures TransitionConflict(c, t, now).Ok? <==>
      && MayEnter(t.to, c.state) && !Blank(t.actorId) && !Blank(t.rationale) && now != 0 && c.detectedAt <= now
      && (t.to == ResolutionProposed || t.to == Resolved ==>
            t.strategy == "serialize" || t.strategy == "reassign" || t.strategy == "merge" || t.strategy == "human_review" || t.strategy == "accept_one")
      && (t.to == Escalated ==> t.strategy == "human_review")
    ensures TransitionConflict(c, t, now).Ok? ==>
      var d := TransitionConflict(c, t, now).value;
      && d.events == c.events + [Event(c.state, t.to, NormalizeID(t.actorId), t.strategy, NormalizeText(t.rationale), now)]
      && d.state == t.to && d.updatedAt == now && d.notes == NormalizeText(t.rationale)
  {
    hide NormalizeID, NormalizeText, Blank;
    NormalizeIDEmptyIffBlank(t.actorId);
    NormalizeTextEmptyIffBlank(t.rationale);
  }

  /** In every run each entry of the log follows an edge of the lifecycle. */
  lemma LogFollowsEdges(c: Conflict, attempts: seq<Attempt>)
    requires Replays(c)
    ensures forall e :: e in Run(c, attempts).events ==> MayEnter(e.to, e.from)
  {
    hide Run, GoodEvent, MayEnter;
    RunReplaysLog(c, attempts);
    var events := Run(c, attempts).events;
    forall e | e in events ensures MayEnter(e.to, e.from) {
      var i :| 0 <= i < |events| && events[i] == e;
      GoodEventEnters(events[i], events[..i], c.detectedAt);
    }
  }

  lemma GoodEventEnters(e: Event, before: seq<Event>, detectedAt: int)
    requires GoodEvent(e, before, detectedAt)
    ensures MayEnter(e.to, e.from)
  {
    hide ValidStrategy, StateAfter;
  }
}
