/** Whole runs of acceptances, dismissals and scans, with services and saves that
    fail arbitrarily: what happens to one opportunity over its life. */
module AmbientRuns {
  import opened Wrappers
  import opened Ambient
  import opened AmbientScan
  import Text

  datatype Action =
    | Accept(id: nat, owner: string, sv: Services)
    | Dismiss(id: nat, owner: string, visible: bool, now: int, cooldownHours: nat)
    | Scan(candidates: seq<Opportunity>, policy: Policy, now: int, checkOwner: bool,
           listing: seq<nat>, ended: set<nat>, pursuits: seq<Pursuit>)

  /** The stored records the scan's second read returns; which of them is its limit's choice. */
  function Listing(items: map<nat, Opportunity>, ids: seq<nat>): seq<Opportunity> {
    if ids == [] then []
    else
      var last := ids[|ids| - 1];
      Listing(items, ids[..|ids| - 1]) + if last in items && last !in ids[..|ids| - 1] then [items[last]] else []
  }

  function Fresh(candidates: seq<Opportunity>): seq<Opportunity> {
    seq(|candidates|, i requires 0 <= i < |candidates| => candidates[i].(id := 0))
  }

  ghost function ScanIn(o: Oracle, s: State, a: Action): State
    requires a.Scan?
  {
    var stored := StoreAll(o, s, Fresh(a.candidates), a.policy, a.now, a.checkOwner);
    if stored.failed then stored.state
    else CloseIn(o, stored.state, Listing(stored.state.items, a.listing), a.ended, a.pursuits, a.now).0
  }

  ghost function Step(o: Oracle, s: State, a: Action): State {
    match a
    case Accept(id, owner, sv) => AcceptIn(o, s, id, owner, sv).0
    case Dismiss(id, owner, visible, now, hours) => DismissIn(o, s, id, owner, visible, now, hours).0
    case Scan(_, _, _, _, _, _, _) => ScanIn(o, s, a)
  }

  ghost function Run(o: Oracle, s: State, actions: seq<Action>): State {
    if actions == [] then s else Step(o, Run(o, s, actions[..|actions| - 1]), actions[|actions| - 1])
  }

  // Counting workflows

  function Count(log: seq<nat>, id: nat): nat {
    if log == [] then 0 else Count(log[..|log| - 1], id) + if log[|log| - 1] == id then 1 else 0
  }

  lemma CountMore(log: seq<nat>, x: nat, id: nat)
    ensures Count(log + [x], id) == Count(log, id) + if x == id then 1 else 0
  {
    assert (log + [x])[..|log|] == log;
  }

  /** Every workflow obtained for the record is its reference or was lost on the way. */
  predicate Paid(s: State, id: nat) {
    Count(s.obtained, id) <= Count(s.lost, id) + if id in s.items && s.items[id].workflowId.Some? then 1 else 0
  }

  ghost predicate Invariant(s: State) {
    && Filed(s) && UniqueFingerprints(s.items)
    && (forall id :: Paid(s, id))
    && (forall x :: x in s.obtained ==> x in s.items)
  }

  lemma {:induction false} NotCounted(log: seq<nat>, id: nat)
    requires id !in log
    ensures Count(log, id) == 0
  {
    if log != [] { NotCounted(log[..|log| - 1], id); }
  }

  // One acceptance

  /** What an acceptance does to the one record it is about: its reference is set
      at most once, and its status only moves from proposed to accepted. */
  ghost predicate Touches(s: State, t: State, id: nat) {
    && t.items.Keys == s.items.Keys && t.next == s.next
    && (forall i :: i in s.items && i != id ==> t.items[i] == s.items[i])
    && (forall i :: i != id ==> Count(t.obtained, i) == Count(s.obtained, i) && Count(t.lost, i) == Count(s.lost, i))
    && (forall x :: x in t.obtained ==> x in s.obtained || x == id)
    && id in s.items
    && var a, b := s.items[id], t.items[id];
       && b.id == a.id && b.fingerprint == a.fingerprint && b.owner == a.owner && b.cooldownUntil == a.cooldownUntil
       && (a.workflowId.Some? ==> b.workflowId == a.workflowId && Count(t.obtained, id) == Count(s.obtained, id) && Count(t.lost, id) == Count(s.lost, id))
       && (b.status == a.status || (a.status == Proposed && b.status == Accepted))
       && Count(t.obtained, id) - Count(t.lost, id)
          <= Count(s.obtained, id) - Count(s.lost, id) + if a.workflowId.None? && b.workflowId.Some? then 1 else 0
  }

  /** Saving a form of the record that differs in status and reference only. */
  lemma SaveTouches(o: Oracle, s: State, item: Opportunity)
    requires Filed(s) && item.id in s.items
    requires var a := s.items[item.id];
      && item == a.(workflowId := item.workflowId, status := item.status)
      && (a.workflowId.Some? ==> item.workflowId == a.workflowId)
      && (item.status == a.status || (a.status == Proposed && item.status == Accepted))
    ensures Touches(s, SaveIn(o, s, item).0, item.id)
    ensures SaveIn(o, s, item).1 ==> SaveIn(o, s, item).0.items[item.id] == item
  {
    hide Count;
  }

  lemma PersistTouches(o: Oracle, s: State, item: Opportunity, workflow: nat)
    requires Filed(s) && item.id in s.items && s.items[item.id] == item && item.workflowId.None?
    ensures Touches(s, Persist(o, s, item, workflow).0, item.id)
    ensures Persist(o, s, item, workflow).1 ==> Persist(o, s, item, workflow).0.items[item.id] == item.(workflowId := Some(workflow))
  {
    hide Count;
    forall i
      ensures Count(s.obtained + [item.id], i) == Count(s.obtained, i) + if item.id == i then 1 else 0
      ensures Count(s.lost + [item.id], i) == Count(s.lost, i) + if item.id == i then 1 else 0
    {
      CountMore(s.obtained, item.id, i);
      CountMore(s.lost, item.id, i);
    }
  }

  lemma OrphanTouches(s: State, item: Opportunity)
    requires item.id in s.items && s.items[item.id] == item && item.workflowId.None?
    ensures Touches(s, Orphaned(s, item), item.id)
  {
    hide Count;
    forall i
      ensures Count(s.obtained + [item.id], i) == Count(s.obtained, i) + if item.id == i then 1 else 0
      ensures Count(s.lost + [item.id], i) == Count(s.lost, i) + if item.id == i then 1 else 0
    {
      CountMore(s.obtained, item.id, i);
      CountMore(s.lost, item.id, i);
    }
  }

  lemma NothingTouched(s: State, id: nat)
    requires id in s.items
    ensures Touches(s, s, id)
  {
    hide Count;
  }

  lemma TouchesTransitive(s: State, t: State, u: State, id: nat)
    requires Touches(s, t, id) && Touches(t, u, id)
    ensures Touches(s, u, id)
  {
    hide Count;
  }

  lemma TouchesKeepsFiled(s: State, t: State, id: nat)
    requires Touches(s, t, id) && Filed(s)
    ensures Filed(t)
  {
    hide Count;
  }

  ghost predicate GoodStage(s: State, stage: Stage, id: nat) {
    && Touches(s, stage.state, id)
    && (stage.Go? ==> stage.item.id == id && id in stage.state.items && stage.state.items[id] == stage.item)
  }

  lemma ConcludeTouches(o: Oracle, s: State, item: Opportunity)
    requires Filed(s) && item.id in s.items && s.items[item.id] == item && item.status == Proposed
    ensures Touches(s, Conclude(o, s, item).0, item.id)
  {
    hide Touches, SaveIn;
    SaveTouches(o, s, item.(status := Accepted));
  }

  lemma RouterTouches(o: Oracle, s: State, item: Opportunity, sv: Services)
    requires Filed(s) && item.id in s.items && s.items[item.id] == item && item.status == Proposed
    ensures GoodStage(s, AcceptThroughRouter(o, s, item, sv), item.id)
    ensures var g := AcceptThroughRouter(o, s, item, sv); g.Go? ==> g.item.status == Proposed
  {
    hide Touches, Persist, Conclude, Orphaned;
    NothingTouched(s, item.id);
    if item.workflowId.None? {
      OrphanTouches(s, item);
      ConcludeTouches(o, s, item);
      if sv.route.Routed? { PersistTouches(o, s, item, sv.route.workflow); StaysFiled(o, s, item, sv.route.workflow); }
    }
  }

  lemma StaysFiled(o: Oracle, s: State, item: Opportunity, workflow: nat)
    requires Filed(s) && item.id in s.items
    ensures item.id in Persist(o, s, item, workflow).0.items
  {}

  lemma IntakeTouches(o: Oracle, s: State, item: Opportunity, sv: Services)
    requires Filed(s) && item.id in s.items && s.items[item.id] == item && item.status == Proposed
    ensures GoodStage(s, AcceptByIntake(o, s, item, sv), item.id)
    ensures var g := AcceptByIntake(o, s, item, sv); g.Go? ==> g.item.status == Proposed
  {
    hide Touches, Persist, Orphaned;
    NothingTouched(s, item.id);
    if item.workflowId.None? {
      OrphanTouches(s, item);
      if sv.intake.Received? { PersistTouches(o, s, item, sv.intake.workflow); StaysFiled(o, s, item, sv.intake.workflow); }
    }
  }

  lemma PursuitTouches(o: Oracle, s: State, item: Opportunity, sv: Services)
    requires Filed(s) && item.id in s.items && s.items[item.id] == item && item.status == Proposed
    ensures GoodStage(s, AcceptFromPursuit(o, s, item, sv), item.id)
    ensures var g := AcceptFromPursuit(o, s, item, sv); g.Go? ==> g.item == item
  {
    hide Touches, Conclude;
    NothingTouched(s, item.id);
    ConcludeTouches(o, s, item);
  }

  lemma AcceptTouches(o: Oracle, s: State, id: nat, owner: string, sv: Services)
    requires Filed(s)
    ensures AcceptIn(o, s, id, owner, sv).0 == s || Touches(s, AcceptIn(o, s, id, owner, sv).0, id)
    ensures id in s.items && s.items[id].status != Proposed ==> AcceptIn(o, s, id, owner, sv).0 == s
  {
    hide Touches, AcceptThroughRouter, AcceptFromPursuit, AcceptByIntake, Conclude, VisibleTo, FromPursuit;
    if id in s.items && s.items[id].status == Proposed {
      var item := s.items[id];
      NothingTouched(s, id);
      PursuitTouches(o, s, item, sv);
      RouterTouches(o, s, item, sv);
      var first :=
        if FromPursuit(item) && sv.pursuits then AcceptFromPursuit(o, s, item, sv)
        else if !FromPursuit(item) && sv.pursuits then AcceptThroughRouter(o, s, item, sv)
        else Go(s, item, false);
      if first.Go? {
        TouchesKeepsFiled(s, first.state, id);
        IntakeTouches(o, first.state, first.item, sv);
        var second := AcceptByIntake(o, first.state, first.item, sv);
        TouchesTransitive(s, first.state, second.state, id);
        if second.Go? {
          TouchesKeepsFiled(s, second.state, id);
          ConcludeTouches(o, second.state, second.item);
          TouchesTransitive(s, second.state, Conclude(o, second.state, second.item).0, id);
        }
      }
    }
  }

  // Every step keeps the invariant

  lemma TouchesKeepsInvariant(s: State, t: State, id: nat)
    requires Invariant(s) && Touches(s, t, id)
    ensures Invariant(t)
  {
    hide Count;
    TouchesKeepsFiled(s, t, id);
    forall i ensures Paid(t, i) {
      assert Paid(s, i);
    }
    forall i, j | i in t.items && j in t.items && t.items[i].fingerprint == t.items[j].fingerprint ensures i == j {
      assert s.items[i].fingerprint == t.items[i].fingerprint && s.items[j].fingerprint == t.items[j].fingerprint;
    }
  }

  lemma ScanKeepsInvariant(s: State, t: State, now: int)
    requires Invariant(s) && ScanKeeps(s, t, now)
    ensures Invariant(t)
  {
    hide Count, Filed, UniqueFingerprints;
    forall i ensures Paid(t, i) {
      assert Paid(s, i);
      if i in s.items { assert ScanMoves(s.items[i], t.items[i], now); }
      else { NotCounted(s.obtained, i); }
    }
  }

  lemma {:induction false} ListingMirrors(s: State, ids: seq<nat>)
    requires Filed(s)
    ensures Mirrors(s, Listing(s.items, ids))
    ensures forall k :: 0 <= k < |Listing(s.items, ids)| ==> Listing(s.items, ids)[k].id in ids
  {
    if ids != [] {
      var n := |ids| - 1;
      ListingMirrors(s, ids[..n]);
      var before := Listing(s.items, ids[..n]);
      assert before + [] == before;
      if ids[n] in s.items && ids[n] !in ids[..n] { DistinctMore(before, s.items[ids[n]]); }
      forall x | x in ids[..n] ensures x in ids {}
    }
  }

  lemma ScanInKeeps(o: Oracle, s: State, a: Action)
    requires a.Scan? && Filed(s) && UniqueFingerprints(s.items)
    ensures ScanKeeps(s, ScanIn(o, s, a), a.now)
  {
    hide StoreAll, CloseIn, Filed, UniqueFingerprints, ScanMoves, Mirrors;
    StoreAllMoves(o, s, Fresh(a.candidates), a.policy, a.now, a.checkOwner);
    var stored := StoreAll(o, s, Fresh(a.candidates), a.policy, a.now, a.checkOwner);
    if !stored.failed {
      var listed := Listing(stored.state.items, a.listing);
      ListingMirrors(stored.state, a.listing);
      CloseMoves(o, stored.state, listed, a.ended, a.pursuits, a.now);
      ScanKeepsTransitive(s, stored.state, ScanIn(o, s, a), a.now);
    }
  }

  lemma DismissKeeps(o: Oracle, s: State, id: nat, owner: string, visible: bool, now: int, hours: nat)
    requires Filed(s)
    ensures var t := DismissIn(o, s, id, owner, visible, now, hours).0;
      && t.items.Keys == s.items.Keys && t.obtained == s.obtained && t.lost == s.lost && t.next == s.next
      && forall i :: i in s.items ==>
        t.items[i] == s.items[i]
        || (s.items[i].status == Proposed && t.items[i] == s.items[i].(status := Dismissed, cooldownUntil := Some(now + hours * HOUR)))
  {
    hide VisibleTo;
  }

  lemma DismissKeepsInvariant(s: State, t: State, until: int)
    requires Invariant(s)
    requires t.items.Keys == s.items.Keys && t.obtained == s.obtained && t.lost == s.lost && t.next == s.next
    requires forall i :: i in s.items ==>
      t.items[i] == s.items[i] || t.items[i] == s.items[i].(status := Dismissed, cooldownUntil := Some(until))
    ensures Invariant(t)
  {
    hide Count;
    forall i ensures Paid(t, i) { assert Paid(s, i); }
    forall i, j | i in t.items && j in t.items && t.items[i].fingerprint == t.items[j].fingerprint ensures i == j {
      assert s.items[i].fingerprint == t.items[i].fingerprint && s.items[j].fingerprint == t.items[j].fingerprint;
    }
  }

  lemma StepKeepsInvariant(o: Oracle, s: State, a: Action)
    requires Invariant(s)
    ensures Invariant(Step(o, s, a))
  {
    hide Paid, Touches, ScanKeeps, AcceptIn, DismissIn, ScanIn, Filed, UniqueFingerprints;
    match a {
      case Accept(id, owner, sv) =>
        AcceptTouches(o, s, id, owner, sv);
        if AcceptIn(o, s, id, owner, sv).0 != s { TouchesKeepsInvariant(s, AcceptIn(o, s, id, owner, sv).0, id); }
      case Dismiss(id, owner, visible, now, hours) =>
        DismissKeeps(o, s, id, owner, visible, now, hours);
        DismissKeepsInvariant(s, DismissIn(o, s, id, owner, visible, now, hours).0, now + hours * HOUR);
      case Scan(_, _, _, _, _, _, _) =>
        ScanInKeeps(o, s, a);
        ScanKeepsInvariant(s, ScanIn(o, s, a), a.now);
    }
  }

  lemma {:induction false} RunKeepsInvariant(o: Oracle, actions: seq<Action>)
    ensures Invariant(Run(o, EMPTY, actions))
  {
    hide Step, Invariant;
    if actions == [] {
      EmptyIsGood();
    } else {
      RunKeepsInvariant(o, actions[..|actions| - 1]);
      StepKeepsInvariant(o, Run(o, EMPTY, actions[..|actions| - 1]), actions[|actions| - 1]);
    }
  }

  lemma EmptyIsGood()
    ensures Invariant(EMPTY)
  {}

  // The theorems

  /** Over any run, the workflows obtained for an opportunity number at most one
      more than the references that were lost before they reached the store, and
      there is one opportunity for each fingerprint. */
  lemma WorkflowsAreBounded(o: Oracle, actions: seq<Action>, id: nat)
    ensures var s := Run(o, EMPTY, actions);
      && Count(s.obtained, id) <= 1 + Count(s.lost, id)
      && UniqueFingerprints(s.items)
  {
    hide Count, Run, UniqueFingerprints, Filed;
    RunKeepsInvariant(o, actions);
    assert Paid(Run(o, EMPTY, actions), id);
  }

  /** What no single step undoes. */
  ghost predicate Lasting(s: State, t: State, id: nat) {
    id in s.items ==>
      && id in t.items
      && var a, b := s.items[id], t.items[id];
         && b.fingerprint == a.fingerprint && b.owner == a.owner
         && (a.workflowId.Some? ==> b.workflowId == a.workflowId)
         && (a.workflowId.Some? || a.status == Accepted || a.status == Completed ==> Count(t.obtained, id) == Count(s.obtained, id))
         && (a.status == Completed ==> b.status == Completed)
         && (a.status == Accepted || a.status == Completed ==>
               (b.status == Accepted || b.status == Completed) && b.workflowId == a.workflowId)
  }

  lemma StepLasts(o: Oracle, s: State, a: Action, id: nat)
    requires Invariant(s)
    ensures Lasting(s, Step(o, s, a), id)
  {
    hide Paid, Count, AcceptIn, DismissIn, ScanIn, UniqueFingerprints;
    match a {
      case Accept(i, owner, sv) => AcceptTouches(o, s, i, owner, sv);
      case Dismiss(i, owner, visible, now, hours) => DismissKeeps(o, s, i, owner, visible, now, hours);
      case Scan(_, _, _, _, _, _, _) =>
        ScanInKeeps(o, s, a);
        if id in s.items { assert ScanMoves(s.items[id], ScanIn(o, s, a).items[id], a.now); }
    }
  }

  lemma LastingTransitive(s: State, t: State, u: State, id: nat)
    requires Lasting(s, t, id) && Lasting(t, u, id)
    ensures Lasting(s, u, id)
  {
    hide Count;
  }

  lemma LastingReflexive(s: State, id: nat)
    ensures Lasting(s, s, id)
  {}

  /** Over any further run: a workflow reference is write-once, completed is final,
      an accepted opportunity is never proposed or dismissed again, and once it is
      accepted no further workflow is obtained for it. */
  lemma {:induction false} LifecycleLasts(o: Oracle, s: State, more: seq<Action>, id: nat)
    requires Invariant(s)
    ensures Lasting(s, Run(o, s, more), id) && Invariant(Run(o, s, more))
  {
    hide Step, Lasting, Invariant;
    if more == [] {
      LastingReflexive(s, id);
    } else {
      var n := |more| - 1;
      LifecycleLasts(o, s, more[..n], id);
      var t := Run(o, s, more[..n]);
      StepLasts(o, t, more[n], id);
      StepKeepsInvariant(o, t, more[n]);
      LastingTransitive(s, t, Step(o, t, more[n]), id);
    }
  }

  /** Accepting an opportunity whose pursuit is still a candidate obtains no
      workflow, and then nothing ever does. */
  lemma CandidateAcceptanceNeverWorks(o: Oracle, s: State, id: nat, owner: string, sv: Services, more: seq<Action>)
    requires Invariant(s) && id in s.items && s.items[id].status == Proposed
    requires "pursuit" <= Text.Trim(s.items[id].sourceType) && sv.pursuits && sv.detail == Found(true)
    requires AcceptIn(o, s, id, owner, sv).1.Ok?
    ensures var t := AcceptIn(o, s, id, owner, sv).0;
      && id in t.items && t.items[id].status == Accepted && (t.items[id].workflowId.None? || t.items[id].workflowId == Some(0))
      && t.obtained == s.obtained
      && Count(Run(o, t, more).obtained, id) == Count(s.obtained, id)
      && id in Run(o, t, more).items && Run(o, t, more).items[id].workflowId == t.items[id].workflowId
  {
    hide Count, Paid, Run, UniqueFingerprints, VisibleTo, Text.Trim;
    StepKeepsInvariant(o, s, Accept(id, owner, sv));
    LifecycleLasts(o, AcceptIn(o, s, id, owner, sv).0, more, id);
  }

  /** No scan of the run came after the instant. */
  predicate ScansBy(actions: seq<Action>, until: int) {
    forall i :: 0 <= i < |actions| && actions[i].Scan? ==> actions[i].now <= until
  }

  lemma DismissedStep(o: Oracle, s: State, a: Action, id: nat, until: int)
    requires Invariant(s) && id in s.items && s.items[id].status == Dismissed && s.items[id].cooldownUntil == Some(until)
    requires a.Scan? ==> a.now <= until
    ensures var t := Step(o, s, a); id in t.items && t.items[id].status == Dismissed && t.items[id].cooldownUntil == Some(until)
  {
    hide Paid, Count, AcceptIn, DismissIn, ScanIn, UniqueFingerprints;
    match a {
      case Accept(i, owner, sv) => AcceptTouches(o, s, i, owner, sv);
      case Dismiss(i, owner, visible, now, hours) => DismissKeeps(o, s, i, owner, visible, now, hours);
      case Scan(_, _, _, _, _, _, _) =>
        ScanInKeeps(o, s, a);
        assert ScanMoves(s.items[id], ScanIn(o, s, a).items[id], a.now);
    }
  }

  /** A dismissed opportunity stays dismissed until a scan runs after its cooldown. */
  lemma {:induction false} DismissedUntilCooled(o: Oracle, s: State, more: seq<Action>, id: nat, until: int)
    requires Invariant(s) && id in s.items && s.items[id].status == Dismissed && s.items[id].cooldownUntil == Some(until)
    requires ScansBy(more, until)
    ensures var t := Run(o, s, more); id in t.items && t.items[id].status == Dismissed && t.items[id].cooldownUntil == Some(until)
  {
    hide Step, Invariant;
    if more != [] {
      var n := |more| - 1;
      forall i | 0 <= i < n && more[..n][i].Scan? ensures more[..n][i].now <= until { assert more[i].Scan?; }
      DismissedUntilCooled(o, s, more[..n], id, until);
      LifecycleLasts(o, s, more[..n], id);
      DismissedStep(o, Run(o, s, more[..n]), more[n], id, until);
    }
  }

  /** A dismissal is answered if and only if its caller is heard and the save takes
      effect, and it leaves exactly that: dismissed, until its cooldown. */
  lemma DismissalSetsCooldown(o: Oracle, s: State, id: nat, owner: string, visible: bool, now: int, hours: nat)
    requires Filed(s) && id in s.items && s.items[id].status == Proposed
    ensures var (t, reply) := DismissIn(o, s, id, owner, visible, now, hours);
      && (reply.Ok? <==> Heard(s.items[id], owner, visible) && o(s.saves) == Fine)
      && (reply.Ok? ==>
            && id in t.items && t.items[id].status == Dismissed && t.items[id].cooldownUntil == Some(now + hours * 3_600_000_000_000)
            && reply.value == t.items[id])
  {
    Text.TrimIdempotent(owner);
    hide Text.Trim, Text.Blank;
  }

  /** Whenever a proposal already has its workflow, from whatever earlier attempt,
      an acceptance obtains nothing more, and it is answered if and only if the record
      is visible, its pursuit or the router is in order, the link is made and the
      save takes effect; then it ends accepted with that same reference. */
  lemma ReferencedAcceptanceIff(o: Oracle, s: State, id: nat, owner: string, sv: Services)
    requires Filed(s) && id in s.items && s.items[id].status == Proposed
    requires s.items[id].workflowId.Some? && s.items[id].workflowId.value != 0
    ensures var (t, reply) := AcceptIn(o, s, id, owner, sv);
      && t.obtained == s.obtained && t.lost == s.lost
      && (reply.Ok? <==>
            && Heard(s.items[id], owner, sv.visible)
            && (sv.pursuits ==>
                  && (if "pursuit" <= Text.Trim(s.items[id].sourceType) then sv.pursuitIdValid && sv.detail == Found(false) else sv.router)
                  && sv.linked)
            && o(s.saves) == Fine)
      && (reply == Err(NeedsReview) <==>
            Heard(s.items[id], owner, sv.visible) && sv.pursuits && "pursuit" <= Text.Trim(s.items[id].sourceType)
            && sv.pursuitIdValid && sv.detail == Found(true))
      && (reply.Ok? ==> id in t.items && t.items[id] == reply.value && reply.value == s.items[id].(status := Accepted))
  {
    Text.TrimIdempotent(owner);
    hide Text.Trim, Text.Blank;
  }

  /** A proposal without a workflow is accepted if and only if its caller is heard,
      the services that its kind needs answer, and the saves take effect: a pursuit's
      own goes through its pursuit and, unless that is a candidate, through intake;
      any other through the router, or through intake where no pursuits are kept. */
  lemma FirstAcceptanceIff(o: Oracle, s: State, id: nat, owner: string, sv: Services)
    requires Filed(s) && id in s.items && s.items[id].status == Proposed && s.items[id].workflowId == None
    ensures AcceptIn(o, s, id, owner, sv).1.Ok? <==>
      && Heard(s.items[id], owner, sv.visible) && o(s.saves) == Fine
      && (if !sv.pursuits then sv.workflows && sv.intake.Received? && sv.intake.workflow != 0 && o(s.saves + 1) == Fine
          else if "pursuit" <= Text.Trim(s.items[id].sourceType) then
            && sv.pursuitIdValid && sv.detail.Found?
            && (if sv.detail.candidate then sv.metadataLinked
                else sv.workflows && sv.intake.Received? && sv.intake.workflow != 0 && sv.linked && o(s.saves + 1) == Fine)
          else sv.router && sv.route.Routed? && (sv.route.workflow != 0 ==> o(s.saves + 1) == Fine))
  {
    Text.TrimIdempotent(owner);
    hide Text.Trim, Text.Blank;
  }

  /** What else is answered: a resolved record as it is, and a dismissed one never. */
  lemma ResolvedAnswers(o: Oracle, s: State, id: nat, owner: string, sv: Services, now: int, hours: nat)
    requires id in s.items && s.items[id].status != Proposed && Heard(s.items[id], owner, sv.visible)
    ensures AcceptIn(o, s, id, owner, sv) == (s, if s.items[id].status == Dismissed then Err(WrongState) else Ok(s.items[id]))
    ensures DismissIn(o, s, id, owner, sv.visible, now, hours) == (s, if s.items[id].status == Dismissed then Ok(s.items[id]) else Err(WrongState))
  {
    Text.TrimIdempotent(owner);
    hide Text.Trim, Text.Blank;
  }

  /** In every run an acceptance or a dismissal changes a record only for its owner
      or for a caller without a name, and a stranger's attempt changes nothing. */
  lemma OnlyOwnersResolve(o: Oracle, actions: seq<Action>, a: Action, id: nat)
    requires !a.Scan? && id in Run(o, EMPTY, actions).items
    ensures var s := Run(o, EMPTY, actions);
      var t := Step(o, s, a);
      && id in t.items
      && (t.items[id] != s.items[id] ==> a.id == id && (Text.Blank(a.owner) || Text.Trim(a.owner) == Text.Trim(s.items[id].owner)))
      && (a.id == id && !Text.Blank(a.owner) && Text.Trim(a.owner) != Text.Trim(s.items[id].owner) ==> t == s)
  {
    hide Run, AcceptIn, DismissIn, Paid, UniqueFingerprints, Count, Text.Trim, Text.Blank;
    RunKeepsInvariant(o, actions);
    var s := Run(o, EMPTY, actions);
    match a {
      case Accept(i, owner, sv) =>
        NotFoundIffUnheard(o, s, i, owner, sv, sv.visible, 0, 0);
        NotFoundChangesNothing(o, s, i, owner, sv);
        AcceptTouches(o, s, i, owner, sv);
      case Dismiss(i, owner, visible, now, hours) =>
        NotFoundIffUnheard(o, s, i, owner, NOBODY, visible, now, hours);
        DismissKeeps(o, s, i, owner, visible, now, hours);
        DismissTouches(o, s, i, owner, visible, now, hours);
    }
  }

  lemma NotFoundChangesNothing(o: Oracle, s: State, id: nat, owner: string, sv: Services)
    ensures id !in s.items ==> AcceptIn(o, s, id, owner, sv).0 == s
  {
    hide VisibleTo, FromPursuit;
  }

  lemma DismissTouches(o: Oracle, s: State, id: nat, owner: string, visible: bool, now: int, hours: nat)
    requires Filed(s)
    ensures var t := DismissIn(o, s, id, owner, visible, now, hours).0;
      forall i :: i in s.items && i != id ==> i in t.items && t.items[i] == s.items[i]
  {
    hide VisibleTo;
  }

  /** An acceptance made by a pursuit that fails only in linking has already persisted
      its workflow: repeated at once it concludes with that same reference and
      obtains nothing, whatever an intake would answer. */
  lemma RetryRepairsLinks(o: Oracle, s: State, id: nat, owner: string, sv: Services, retry: Services)
    requires Filed(s) && id in s.items && s.items[id].status == Proposed && s.items[id].workflowId.None?
    requires "pursuit" <= Text.Trim(s.items[id].sourceType) && sv.pursuits && sv.pursuitIdValid && sv.detail == Found(false) && sv.visible
    requires Heard(s.items[id], owner, true)
    requires sv.workflows && sv.intake.Received? && sv.intake.workflow != 0 && !sv.linked
    requires retry == sv.(linked := true, intake := retry.intake, workflows := retry.workflows)
    requires o(s.saves) == Fine && o(s.saves + 1) == Fine
    ensures var (t, failed) := AcceptIn(o, s, id, owner, sv);
      var (u, reply) := AcceptIn(o, t, id, owner, retry);
      && failed == Err(ServiceFailed)
      && reply.Ok? && id in u.items && u.items[id] == reply.value
      && reply.value == s.items[id].(status := Accepted, workflowId := Some(sv.intake.workflow))
      && u.obtained == s.obtained + [id] && u.lost == s.lost
  {
    Text.TrimIdempotent(owner);
    hide Text.Trim, Text.Blank;
    var item := s.items[id];
    var (t, _) := AcceptIn(o, s, id, owner, sv);
    assert t.items[id] == item.(workflowId := Some(sv.intake.workflow));
  }

  /** With every service answering and every save taking effect, a proposal that no
      pursuit made ends accepted with the one workflow that intake returned. */
  lemma AcceptanceObtainsOne(o: Oracle, s: State, id: nat, owner: string, sv: Services)
    requires Filed(s) && id in s.items && s.items[id].status == Proposed && s.items[id].workflowId.None?
    requires !("pursuit" <= Text.Trim(s.items[id].sourceType)) && Heard(s.items[id], owner, sv.visible) && sv.workflows
    requires sv.pursuits ==> sv.router && sv.route.Routed?
    requires sv.intake.Received? && sv.intake.workflow != 0
    requires o(s.saves) == Fine && o(s.saves + 1) == Fine
    ensures var (t, reply) := AcceptIn(o, s, id, owner, sv);
      && reply.Ok? && id in t.items && t.items[id] == reply.value && reply.value.status == Accepted && t.lost == s.lost
      && (!sv.pursuits ==> reply.value.workflowId == Some(sv.intake.workflow) && t.obtained == s.obtained + [id])
      && (sv.pursuits && sv.route.workflow != 0 ==> reply.value.workflowId == Some(sv.route.workflow) && t.obtained == s.obtained + [id])
      && (sv.pursuits && sv.route.workflow == 0 ==> reply.value.workflowId == None && t.obtained == s.obtained)
  {
    Text.TrimIdempotent(owner);
    hide Text.Trim, Text.Blank;
  }
}
