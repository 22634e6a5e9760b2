/** Scans: storing the candidates a scan offers, and closing the opportunities whose
    workflow or pursuit has ended. */
module AmbientScan {
  import opened Wrappers
  import opened Ambient
  import Text

  datatype Policy = Policy(minimumScore: int, minimumConfidence: int)
  datatype Counters = Counters(filtered: nat, created: nat, updated: nat)

  const NONE := Counters(0, 0, 0)

  predicate Below(candidate: Opportunity, policy: Policy) {
    candidate.priority < policy.minimumScore || candidate.confidence < policy.minimumConfidence
  }

  /** Fingerprints are unique, as the store's index demands. */
  ghost predicate UniqueFingerprints(items: map<nat, Opportunity>) {
    forall i, j :: i in items && j in items && items[i].fingerprint == items[j].fingerprint ==> i == j
  }

  /** IDs are assigned in order and records are filed under theirs. */
  ghost predicate Filed(s: State) {
    s.next >= 1 && forall i :: i in s.items ==> s.items[i].id == i && 0 < i < s.next
  }

  ghost predicate Holds(items: map<nat, Opportunity>, fingerprint: string, id: nat) {
    id in items && items[id].fingerprint == fingerprint
  }

  ghost predicate Known(items: map<nat, Opportunity>, fingerprint: string) {
    exists id :: Holds(items, fingerprint, id)
  }

  ghost function Find(items: map<nat, Opportunity>, fingerprint: string): nat
    requires Known(items, fingerprint)
    ensures Holds(items, fingerprint, Find(items, fingerprint))
  {
    var id :| Holds(items, fingerprint, id);
    id
  }

  predicate Cooled(item: Opportunity, now: int) {
    item.cooldownUntil.None? || item.cooldownUntil.value < now
  }

  function Refreshed(existing: Opportunity, candidate: Opportunity, now: int): Opportunity {
    existing.(details := candidate.details, priority := candidate.priority, confidence := candidate.confidence, lastSeenAt := now,
              status := if existing.status == Dismissed && Cooled(existing, now) then Proposed else existing.status)
  }

  datatype Stored = Stored(state: State, counts: Counters, failed: bool)

  /** Storing one candidate; only the owner-scoped scan compares owners. */
  ghost function StoreOne(o: Oracle, s: State, n: Counters, candidate: Opportunity, policy: Policy, now: int, checkOwner: bool): Stored {
    if Below(candidate, policy) then Stored(s, n.(filtered := n.filtered + 1), false)
    else if Known(s.items, candidate.fingerprint) then
      var existing := s.items[Find(s.items, candidate.fingerprint)];
      if checkOwner && Text.Trim(existing.owner) != Text.Trim(candidate.owner) then Stored(s, n, true)
      else
        var (t, ok) := SaveIn(o, s, Refreshed(existing, candidate, now));
        Stored(t, if ok then n.(updated := n.updated + 1) else n, !ok)
    else
      var (t, ok) := SaveIn(o, s, candidate.(lastSeenAt := now, status := Proposed));
      Stored(t, if ok then n.(created := n.created + 1) else n, !ok)
  }

  /** The loop stops at the first failure. */
  ghost function StoreAll(o: Oracle, s: State, candidates: seq<Opportunity>, policy: Policy, now: int, checkOwner: bool): Stored {
    if candidates == [] then Stored(s, NONE, false)
    else
      var before := StoreAll(o, s, candidates[..|candidates| - 1], policy, now, checkOwner);
      if before.failed then before
      else StoreOne(o, before.state, before.counts, candidates[|candidates| - 1], policy, now, checkOwner)
  }

  /** Candidates come from the ranking: new records. */
  predicate Candidates(candidates: seq<Opportunity>) {
    forall i :: 0 <= i < |candidates| ==> candidates[i].id == 0
  }

  method StoreCandidates(service: Service, candidates: seq<Opportunity>, policy: Policy, now: int, checkOwner: bool)
    returns (counts: Counters, failed: bool)
    requires Candidates(candidates) && Filed(service.Now()) && UniqueFingerprints(service.items)
    modifies service
    ensures Stored(service.Now(), counts, failed) == StoreAll(service.oracle, old(service.Now()), candidates, policy, now, checkOwner)
    ensures !failed ==> counts.filtered + counts.created + counts.updated == |candidates|
    ensures Filed(service.Now()) && UniqueFingerprints(service.items)
  {
    hide SaveIn, Below, Refreshed, Filed, UniqueFingerprints;
    counts, failed := NONE, false;
    ghost var start := service.Now();
    for i := 0 to |candidates|
      invariant !failed && Filed(service.Now()) && UniqueFingerprints(service.items)
      invariant Stored(service.Now(), counts, false) == StoreAll(service.oracle, start, candidates[..i], policy, now, checkOwner)
      invariant counts.filtered + counts.created + counts.updated == i
    {
      ghost var before, n := service.Now(), counts;
      var candidate := candidates[i];
      assert candidates[..i + 1][..i] == candidates[..i];
      StoreOneKeeps(service.oracle, before, n, candidate, policy, now, checkOwner);
      StopsHere(service.oracle, start, candidates, i, policy, now, checkOwner);
      if Below(candidate, policy) {
        counts := counts.(filtered := counts.filtered + 1);
        continue;
      }
      var existing := FindByFingerprint(service, candidate.fingerprint);
      if existing.Some? {
        var item := existing.value;
        if checkOwner && Text.Trim(item.owner) != Text.Trim(candidate.owner) { return counts, true; }
        item := Refreshed(item, candidate, now);
        var ok := service.SaveOpportunity(item);
        if !ok { return counts, true; }
        counts := counts.(updated := counts.updated + 1);
      } else {
        var ok := service.SaveOpportunity(candidate.(lastSeenAt := now, status := Proposed));
        if !ok { return counts, true; }
        counts := counts.(created := counts.created + 1);
      }
    }
    assert candidates[..|candidates|] == candidates;
  }

  method FindByFingerprint(service: Service, fingerprint: string) returns (found: Option<Opportunity>)
    requires UniqueFingerprints(service.items)
    ensures found.Some? <==> Known(service.items, fingerprint)
    ensures found.Some? ==> found.value == service.items[Find(service.items, fingerprint)]
  {
    var left := service.items.Keys;
    while left != {}
      invariant left <= service.items.Keys
      invariant forall id :: id in service.items && id !in left ==> service.items[id].fingerprint != fingerprint
      decreases left
    {
      var id :| id in left;
      if service.items[id].fingerprint == fingerprint {
        assert Holds(service.items, fingerprint, id);
        return Some(service.items[id]);
      }
      left := left - {id};
    }
    return None;
  }

  lemma StopsHere(o: Oracle, s: State, candidates: seq<Opportunity>, i: nat, policy: Policy, now: int, checkOwner: bool)
    requires i < |candidates|
    requires !StoreAll(o, s, candidates[..i], policy, now, checkOwner).failed
    ensures var before := StoreAll(o, s, candidates[..i], policy, now, checkOwner);
      var after := StoreOne(o, before.state, before.counts, candidates[i], policy, now, checkOwner);
      && StoreAll(o, s, candidates[..i + 1], policy, now, checkOwner) == after
      && (after.failed ==> StoreAll(o, s, candidates, policy, now, checkOwner) == after)
  {
    hide StoreOne;
    assert candidates[..i + 1][..i] == candidates[..i];
    if StoreAll(o, s, candidates[..i + 1], policy, now, checkOwner).failed {
      FailureIsFinal(o, s, candidates, i + 1, policy, now, checkOwner);
    }
  }

  lemma {:induction false} FailureIsFinal(o: Oracle, s: State, candidates: seq<Opportunity>, n: nat, policy: Policy, now: int, checkOwner: bool)
    requires n <= |candidates| && StoreAll(o, s, candidates[..n], policy, now, checkOwner).failed
    ensures StoreAll(o, s, candidates, policy, now, checkOwner) == StoreAll(o, s, candidates[..n], policy, now, checkOwner)
  {
    hide StoreOne;
    if n == |candidates| {
      assert candidates[..n] == candidates;
    } else {
      assert candidates[..|candidates| - 1][..n] == candidates[..n];
      FailureIsFinal(o, s, candidates[..|candidates| - 1], n, policy, now, checkOwner);
    }
  }

  lemma SaveExistingKeeps(o: Oracle, s: State, item: Opportunity)
    requires Filed(s) && UniqueFingerprints(s.items) && item.id in s.items && item.fingerprint == s.items[item.id].fingerprint
    ensures Filed(SaveIn(o, s, item).0) && UniqueFingerprints(SaveIn(o, s, item).0.items)
  {}

  lemma SaveNewKeeps(o: Oracle, s: State, item: Opportunity)
    requires Filed(s) && UniqueFingerprints(s.items) && item.id == 0 && !Known(s.items, item.fingerprint)
    ensures Filed(SaveIn(o, s, item).0) && UniqueFingerprints(SaveIn(o, s, item).0.items)
  {
    forall i | i in s.items ensures s.items[i].fingerprint != item.fingerprint {
      assert !Holds(s.items, item.fingerprint, i);
    }
  }

  lemma StoreOneKeeps(o: Oracle, s: State, n: Counters, candidate: Opportunity, policy: Policy, now: int, checkOwner: bool)
    requires Filed(s) && UniqueFingerprints(s.items) && candidate.id == 0
    ensures var t := StoreOne(o, s, n, candidate, policy, now, checkOwner).state; Filed(t) && UniqueFingerprints(t.items)
  {
    hide SaveIn, UniqueFingerprints;
    if !Below(candidate, policy) {
      if Known(s.items, candidate.fingerprint) {
        SaveExistingKeeps(o, s, Refreshed(s.items[Find(s.items, candidate.fingerprint)], candidate, now));
      } else {
        SaveNewKeeps(o, s, candidate.(lastSeenAt := now, status := Proposed));
      }
    }
  }

  // Closing what has ended

  datatype Pursuit = Pursuit(id: Option<string>, archived: bool, status: string)

  predicate EndsByWorkflow(item: Opportunity, ended: set<nat>) {
    item.workflowId.Some? && item.status != Completed && item.status != Dismissed && item.workflowId.value in ended
  }

  /** The pursuit a lookup by ID finds: the last one listed. */
  function PursuitOf(pursuits: seq<Pursuit>, id: string): Option<Pursuit> {
    if pursuits == [] then None
    else if pursuits[|pursuits| - 1].id == Some(id) then Some(pursuits[|pursuits| - 1])
    else PursuitOf(pursuits[..|pursuits| - 1], id)
  }

  predicate EndsByPursuit(item: Opportunity, pursuits: seq<Pursuit>) {
    && "pursuit" <= Text.Lower(Text.Trim(item.sourceType))
    && item.status != Completed && item.status != Dismissed
    && var pursuit := PursuitOf(pursuits, Text.Trim(item.sourceId));
       pursuit.Some? && (pursuit.value.archived || Text.Lower(pursuit.value.status) == "completed")
  }

  function ClosedPursuitUpdates(items: seq<Opportunity>, pursuits: seq<Pursuit>, now: int): seq<Opportunity> {
    if items == [] then []
    else
      var last := items[|items| - 1];
      ClosedPursuitUpdates(items[..|items| - 1], pursuits, now) +
        if EndsByPursuit(last, pursuits) then [ClosedByPursuit(last, now)] else []
  }

  /** What is left of the listing after closing by workflow: the closed items in their new state. */
  datatype Closing = Closing(state: State, listed: seq<Opportunity>, updated: nat, failed: bool)

  function CloseWorkflows(o: Oracle, s: State, listed: seq<Opportunity>, ended: set<nat>): Closing {
    if listed == [] then Closing(s, [], 0, false)
    else
      var before, item := CloseWorkflows(o, s, listed[..|listed| - 1], ended), listed[|listed| - 1];
      if before.failed then before
      else if !EndsByWorkflow(item, ended) then before.(listed := before.listed + [item])
      else
        var closed := item.(status := Completed);
        var (t, ok) := SaveIn(o, before.state, closed);
        Closing(t, before.listed + [closed], if ok then before.updated + 1 else before.updated, !ok)
  }

  function SaveAll(o: Oracle, s: State, updates: seq<Opportunity>): (State, nat, bool) {
    if updates == [] then (s, 0, false)
    else
      var (before, n, failed) := SaveAll(o, s, updates[..|updates| - 1]);
      if failed then (before, n, true)
      else
        var (t, ok) := SaveIn(o, before, updates[|updates| - 1]);
        (t, if ok then n + 1 else n, !ok)
  }

  function CloseIn(o: Oracle, s: State, listed: seq<Opportunity>, ended: set<nat>, pursuits: seq<Pursuit>, now: int): (State, nat, bool) {
    var first := CloseWorkflows(o, s, listed, ended);
    if first.failed then (first.state, first.updated, true)
    else
      var (t, n, failed) := SaveAll(o, first.state, ClosedPursuitUpdates(first.listed, pursuits, now));
      (t, first.updated + n, failed)
  }

  method CloseEnded(service: Service, listed: seq<Opportunity>, ended: set<nat>, pursuits: seq<Pursuit>, now: int)
    returns (updated: nat, failed: bool)
    modifies service
    ensures (service.Now(), updated, failed) == CloseIn(service.oracle, old(service.Now()), listed, ended, pursuits, now)
    ensures Shown(old(service.Now()), listed) && !failed ==>
      updated == EndCount(listed, ended, pursuits)
      && forall k :: 0 <= k < |listed| ==> listed[k].id in service.items && service.items[listed[k].id] == Ended(listed[k], ended, pursuits, now)
  {
    hide SaveIn, EndsByWorkflow, EndsByPursuit, Ended, Shown, EndCount;
    EndedListing(service.oracle, service.Now(), listed, ended, pursuits, now);
    updated, failed := 0, false;
    ghost var start := service.Now();
    var items: seq<Opportunity> := [];
    for i := 0 to |listed|
      invariant Closing(service.Now(), items, updated, false) == CloseWorkflows(service.oracle, start, listed[..i], ended)
    {
      assert listed[..i + 1][..i] == listed[..i];
      var item := listed[i];
      ClosingStops(service.oracle, start, listed, i + 1, ended);
      if !EndsByWorkflow(item, ended) {
        items := items + [item];
        continue;
      }
      item := item.(status := Completed);
      var ok := service.SaveOpportunity(item);
      if !ok { return updated, true; }
      items := items + [item];
      updated := updated + 1;
    }
    assert listed[..|listed|] == listed;
    var updates := CollectClosed(items, pursuits, now);
    var saved, lost := SaveUpdates(service, updates);
    return updated + saved, lost;
  }

  /** The listing of a well-kept store. */
  ghost predicate Shown(s: State, listed: seq<Opportunity>) {
    Filed(s) && UniqueFingerprints(s.items) && Mirrors(s, listed)
  }

  lemma EndedListing(o: Oracle, s: State, listed: seq<Opportunity>, ended: set<nat>, pursuits: seq<Pursuit>, now: int)
    ensures var (t, n, failed) := CloseIn(o, s, listed, ended, pursuits, now);
      Shown(s, listed) && !failed ==>
        n == EndCount(listed, ended, pursuits)
        && forall k :: 0 <= k < |listed| ==> listed[k].id in t.items && t.items[listed[k].id] == Ended(listed[k], ended, pursuits, now)
  {
    hide CloseIn, Ended, EndCount, Ends, KeptOrEnded, UniqueFingerprints;
    if Shown(s, listed) { CloseIsExact(o, s, listed, ended, pursuits, now); }
  }

  method SaveUpdates(service: Service, updates: seq<Opportunity>) returns (updated: nat, failed: bool)
    modifies service
    ensures (service.Now(), updated, failed) == SaveAll(service.oracle, old(service.Now()), updates)
  {
    hide SaveIn;
    updated, failed := 0, false;
    ghost var start := service.Now();
    for i := 0 to |updates|
      invariant (service.Now(), updated, false) == SaveAll(service.oracle, start, updates[..i])
    {
      assert updates[..i + 1][..i] == updates[..i];
      SavingStops(service.oracle, start, updates, i + 1);
      var ok := service.SaveOpportunity(updates[i]);
      if !ok { return updated, true; }
      updated := updated + 1;
    }
    assert updates[..|updates|] == updates;
  }

  function ClosedByPursuit(item: Opportunity, now: int): Opportunity {
    item.(status := Completed, lastSeenAt := now)
  }

  /** Collects the open records whose pursuit has ended, each in its closed form,
      and no other. */
  method CollectClosed(items: seq<Opportunity>, pursuits: seq<Pursuit>, now: int) returns (updates: seq<Opportunity>)
    ensures updates == ClosedPursuitUpdates(items, pursuits, now)
    ensures forall u :: u in updates <==> exists item :: item in items && EndsByPursuit(item, pursuits) && u == ClosedByPursuit(item, now)
    ensures DistinctRecords(items) ==> DistinctRecords(updates)
  {
    hide EndsByPursuit, ClosedByPursuit;
    updates := [];
    for i := 0 to |items|
      invariant updates == ClosedPursuitUpdates(items[..i], pursuits, now)
    {
      assert items[..i + 1][..i] == items[..i];
      if EndsByPursuit(items[i], pursuits) { updates := updates + [ClosedByPursuit(items[i], now)]; }
    }
    assert items[..|items|] == items;
    forall u ensures u in updates <==> exists item :: item in items && EndsByPursuit(item, pursuits) && u == ClosedByPursuit(item, now) {
      UpdateMembers(items, pursuits, now, u);
    }
    if DistinctRecords(items) { UpdatesAreClosings(items, pursuits, now); }
  }

  lemma {:induction false} UpdateMembers(items: seq<Opportunity>, pursuits: seq<Pursuit>, now: int, u: Opportunity)
    ensures u in ClosedPursuitUpdates(items, pursuits, now) <==>
      exists item :: item in items && EndsByPursuit(item, pursuits) && u == ClosedByPursuit(item, now)
  {
    hide EndsByPursuit, ClosedByPursuit;
    if items != [] {
      var n := |items| - 1;
      UpdateMembers(items[..n], pursuits, now, u);
      assert items == items[..n] + [items[n]];
    }
  }

  lemma {:induction false} ClosingStops(o: Oracle, s: State, listed: seq<Opportunity>, n: nat, ended: set<nat>)
    requires n <= |listed|
    ensures CloseWorkflows(o, s, listed[..n], ended).failed ==> CloseWorkflows(o, s, listed, ended) == CloseWorkflows(o, s, listed[..n], ended)
  {
    hide SaveIn, EndsByWorkflow;
    if n == |listed| {
      assert listed[..n] == listed;
    } else {
      assert listed[..|listed| - 1][..n] == listed[..n];
      ClosingStops(o, s, listed[..|listed| - 1], n, ended);
    }
  }

  lemma {:induction false} SavingStops(o: Oracle, s: State, updates: seq<Opportunity>, n: nat)
    requires n <= |updates|
    ensures SaveAll(o, s, updates[..n]).2 ==> SaveAll(o, s, updates) == SaveAll(o, s, updates[..n])
  {
    hide SaveIn;
    if n == |updates| {
      assert updates[..n] == updates;
    } else {
      assert updates[..|updates| - 1][..n] == updates[..n];
      SavingStops(o, s, updates[..|updates| - 1], n);
    }
  }

  // What a scan does to an opportunity it did not create

  /** Completed stays, accepted is only completed, and dismissed comes back only
      after its cooldown; a scan never touches the workflow reference. */
  predicate ScanMoves(a: Opportunity, b: Opportunity, now: int) {
    && b.id == a.id && b.fingerprint == a.fingerprint && b.owner == a.owner
    && b.workflowId == a.workflowId && b.cooldownUntil == a.cooldownUntil
    && (a.status == Completed ==> b.status == Completed)
    && (a.status == Accepted ==> b.status == Accepted || b.status == Completed)
    && (a.status == Dismissed ==> b.status == Dismissed || Cooled(a, now))
    && (b.status == Dismissed ==> a.status == Dismissed)
    && (b.status == Accepted ==> a.status == Accepted)
  }

  ghost predicate ScanKeeps(s: State, t: State, now: int) {
    && (forall id :: id in s.items ==> id in t.items && ScanMoves(s.items[id], t.items[id], now))
    && t.obtained == s.obtained && t.lost == s.lost && t.next >= s.next
    && Filed(t) && UniqueFingerprints(t.items)
  }

  lemma ScanKeepsTransitive(s: State, t: State, u: State, now: int)
    requires ScanKeeps(s, t, now) && ScanKeeps(t, u, now)
    ensures ScanKeeps(s, u, now)
  {
    hide Filed, UniqueFingerprints;
    forall id | id in s.items ensures id in u.items && ScanMoves(s.items[id], u.items[id], now) {
      assert ScanMoves(s.items[id], t.items[id], now) && ScanMoves(t.items[id], u.items[id], now);
    }
  }

  lemma SaveMoves(o: Oracle, s: State, item: Opportunity, now: int)
    requires Filed(s) && UniqueFingerprints(s.items) && item.id in s.items && item.id != 0 && ScanMoves(s.items[item.id], item, now)
    ensures ScanKeeps(s, SaveIn(o, s, item).0, now)
    ensures forall id :: id in s.items && id != item.id ==> SaveIn(o, s, item).0.items[id] == s.items[id]
    ensures SaveIn(o, s, item).1 ==> SaveIn(o, s, item).0.items[item.id] == item
  {
    SaveExistingKeeps(o, s, item);
  }

  lemma SaveAdds(o: Oracle, s: State, item: Opportunity, now: int)
    requires Filed(s) && UniqueFingerprints(s.items) && item.id == 0 && !Known(s.items, item.fingerprint)
    ensures ScanKeeps(s, SaveIn(o, s, item).0, now)
    ensures SaveIn(o, s, item).1 ==> Holds(SaveIn(o, s, item).0.items, item.fingerprint, s.next)
  {
    SaveNewKeeps(o, s, item);
  }

  lemma StoreOneMoves(o: Oracle, s: State, n: Counters, candidate: Opportunity, policy: Policy, now: int, checkOwner: bool)
    requires Filed(s) && UniqueFingerprints(s.items) && candidate.id == 0
    ensures ScanKeeps(s, StoreOne(o, s, n, candidate, policy, now, checkOwner).state, now)
  {
    hide SaveIn, Below;
    if !Below(candidate, policy) {
      if Known(s.items, candidate.fingerprint) {
        SaveMoves(o, s, Refreshed(s.items[Find(s.items, candidate.fingerprint)], candidate, now), now);
      } else {
        SaveAdds(o, s, candidate.(lastSeenAt := now, status := Proposed), now);
      }
    }
  }

  lemma {:induction false} StoreAllMoves(o: Oracle, s: State, candidates: seq<Opportunity>, policy: Policy, now: int, checkOwner: bool)
    requires Filed(s) && UniqueFingerprints(s.items) && Candidates(candidates)
    ensures ScanKeeps(s, StoreAll(o, s, candidates, policy, now, checkOwner).state, now)
  {
    hide StoreOne, Filed, UniqueFingerprints, ScanMoves;
    if candidates == [] {
      Unmoved(s, now);
    } else {
      var n := |candidates| - 1;
      StoreAllMoves(o, s, candidates[..n], policy, now, checkOwner);
      var before := StoreAll(o, s, candidates[..n], policy, now, checkOwner);
      if !before.failed {
        StoreOneMoves(o, before.state, before.counts, candidates[n], policy, now, checkOwner);
        ScanKeepsTransitive(s, before.state, StoreAll(o, s, candidates, policy, now, checkOwner).state, now);
      }
    }
  }

  lemma Unmoved(s: State, now: int)
    requires Filed(s) && UniqueFingerprints(s.items)
    ensures ScanKeeps(s, s, now)
  {}

  ghost predicate DistinctRecords(s: seq<Opportunity>) {
    forall j, k :: 0 <= j < k < |s| ==> s[j].id != s[k].id
  }

  /** The listing shows the stored records, each once. */
  ghost predicate Mirrors(s: State, listed: seq<Opportunity>) {
    && (forall k :: 0 <= k < |listed| ==> listed[k].id in s.items && s.items[listed[k].id] == listed[k])
    && DistinctRecords(listed)
  }

  predicate Among(id: nat, listed: seq<Opportunity>) {
    exists k :: 0 <= k < |listed| && listed[k].id == id
  }

  /** Only listed records have changed. */
  ghost predicate Outside(s: State, t: State, listed: seq<Opportunity>) {
    forall id :: id in s.items && !Among(id, listed) ==> id in t.items && t.items[id] == s.items[id]
  }

  ghost predicate SameIds(a: seq<Opportunity>, b: seq<Opportunity>) {
    |a| == |b| && forall k :: 0 <= k < |a| ==> a[k].id == b[k].id
  }

  lemma MirrorsPrefix(s: State, listed: seq<Opportunity>)
    requires listed != [] && Mirrors(s, listed)
    ensures var n := |listed| - 1;
      Mirrors(s, listed[..n]) && !Among(listed[n].id, listed[..n]) && listed[n].id in s.items && s.items[listed[n].id] == listed[n]
  {}

  lemma AmongPrefix(id: nat, listed: seq<Opportunity>)
    requires listed != [] && !Among(id, listed)
    ensures !Among(id, listed[..|listed| - 1]) && id != listed[|listed| - 1].id
  {
    var n := |listed| - 1;
    forall k | 0 <= k < n ensures listed[..n][k].id != id { assert listed[k].id != id; }
  }

  lemma MirrorsMore(t: State, u: State, listed: seq<Opportunity>, before: seq<Opportunity>, item: Opportunity)
    requires Mirrors(t, listed) && SameIds(listed, before) && !Among(item.id, before)
    requires item.id in u.items && u.items[item.id] == item
    requires forall id :: id in t.items && id != item.id ==> id in u.items && u.items[id] == t.items[id]
    ensures Mirrors(u, listed + [item])
  {
    forall k | 0 <= k < |listed| ensures listed[k].id != item.id { assert before[k].id == listed[k].id; }
  }

  /** One more record of the listing is saved, or nothing happens. */
  lemma CloseOneMoves(o: Oracle, s: State, t: State, listed: seq<Opportunity>, u: State, now: int)
    requires listed != [] && Outside(s, t, listed[..|listed| - 1])
    requires forall id :: id in t.items && id != listed[|listed| - 1].id ==> id in u.items && u.items[id] == t.items[id]
    ensures Outside(s, u, listed)
  {
    hide Among;
    forall id | id in s.items && !Among(id, listed) ensures id in u.items && u.items[id] == s.items[id] { AmongPrefix(id, listed); }
  }

  lemma ClosesLegally(item: Opportunity, at: int, now: int)
    requires item.status != Completed && item.status != Dismissed
    ensures ScanMoves(item, item.(status := Completed, lastSeenAt := at), now)
    ensures ScanMoves(item, item.(status := Completed), now)
  {}

  lemma {:induction false} CloseWorkflowsMoves(o: Oracle, s: State, listed: seq<Opportunity>, ended: set<nat>, now: int)
    requires Filed(s) && UniqueFingerprints(s.items) && Mirrors(s, listed)
    ensures var r := CloseWorkflows(o, s, listed, ended);
      && ScanKeeps(s, r.state, now) && Outside(s, r.state, listed)
      && (!r.failed ==> Mirrors(r.state, r.listed) && SameIds(r.listed, listed))
  {
    hide SaveIn, UniqueFingerprints, Filed, Mirrors, Among, Outside, ScanMoves;
    if listed == [] {
      Unmoved(s, now);
      NothingListed(s);
    } else {
      var n := |listed| - 1;
      MirrorsPrefix(s, listed);
      CloseWorkflowsMoves(o, s, listed[..n], ended, now);
      var before, item := CloseWorkflows(o, s, listed[..n], ended), listed[n];
      if before.failed {
        CloseOneMoves(o, s, before.state, listed, before.state, now);
      } else {
        StillStored(s, before.state, listed[..n], item);
        if EndsByWorkflow(item, ended) {
          var closed := item.(status := Completed);
          ClosesLegally(item, now, now);
          CloseStep(o, s, before.state, listed, before.listed, closed, now);
        } else {
          CloseOneMoves(o, s, before.state, listed, before.state, now);
          MirrorsMore(before.state, before.state, before.listed, listed[..n], item);
        }
      }
    }
  }

  lemma NothingListed(s: State)
    ensures Mirrors(s, []) && Outside(s, s, [])
  {}

  lemma StillStored(s: State, t: State, listed: seq<Opportunity>, item: Opportunity)
    requires Outside(s, t, listed) && item.id in s.items && s.items[item.id] == item && !Among(item.id, listed)
    ensures item.id in t.items && t.items[item.id] == item
  {
    hide Among;
  }

  /** Saving the closed form of the last listed record. */
  lemma CloseStep(o: Oracle, s: State, t: State, listed: seq<Opportunity>, done: seq<Opportunity>, closed: Opportunity, now: int)
    requires listed != [] && ScanKeeps(s, t, now) && Outside(s, t, listed[..|listed| - 1])
    requires Mirrors(t, done) && SameIds(done, listed[..|listed| - 1]) && closed.id == listed[|listed| - 1].id
    requires closed.id in t.items && ScanMoves(t.items[closed.id], closed, now) && !Among(closed.id, listed[..|listed| - 1])
    ensures var (u, ok) := SaveIn(o, t, closed);
      ScanKeeps(s, u, now) && Outside(s, u, listed) && (ok ==> Mirrors(u, done + [closed]) && SameIds(done + [closed], listed))
  {
    hide SaveIn, UniqueFingerprints, Mirrors, Among, Outside, ScanMoves;
    var (u, ok) := SaveIn(o, t, closed);
    SaveMoves(o, t, closed, now);
    ScanKeepsTransitive(s, t, u, now);
    CloseOneMoves(o, s, t, listed, u, now);
    if ok { MirrorsMore(t, u, done, listed[..|listed| - 1], closed); }
  }

  /** Every update is the closed form of a listed record, and no record is updated twice. */
  lemma {:induction false} UpdatesAreClosings(listed: seq<Opportunity>, pursuits: seq<Pursuit>, now: int)
    requires DistinctRecords(listed)
    ensures AllClosings(ClosedPursuitUpdates(listed, pursuits, now), listed, now)
    ensures DistinctRecords(ClosedPursuitUpdates(listed, pursuits, now))
  {
    hide ClosingOf, EndsByPursuit;
    if listed != [] {
      var n := |listed| - 1;
      var before := ClosedPursuitUpdates(listed[..n], pursuits, now);
      UpdatesAreClosings(listed[..n], pursuits, now);
      forall k | 0 <= k < |before| ensures ClosingOf(before[k], listed, now) && before[k].id != listed[n].id {
        assert ClosingOf(before[k], listed[..n], now);
        ClosingOfPrefix(before[k], listed, now);
      }
      if EndsByPursuit(listed[n], pursuits) {
        ClosingOfLast(listed, pursuits, now);
        DistinctMore(before, listed[n].(status := Completed, lastSeenAt := now));
      }
      assert before + [] == before;
    }
  }

  lemma DistinctMore(s: seq<Opportunity>, item: Opportunity)
    requires DistinctRecords(s) && forall k :: 0 <= k < |s| ==> s[k].id != item.id
    ensures DistinctRecords(s + [item])
  {}

  ghost predicate AllClosings(updates: seq<Opportunity>, listed: seq<Opportunity>, now: int) {
    forall k :: 0 <= k < |updates| ==> ClosingOf(updates[k], listed, now)
  }

  ghost predicate ClosingOf(update: Opportunity, listed: seq<Opportunity>, now: int) {
    exists k :: 0 <= k < |listed| && listed[k].status != Completed && listed[k].status != Dismissed
      && update == listed[k].(status := Completed, lastSeenAt := now)
  }

  lemma ClosingOfPrefix(update: Opportunity, listed: seq<Opportunity>, now: int)
    requires listed != [] && ClosingOf(update, listed[..|listed| - 1], now)
    requires DistinctRecords(listed)
    ensures ClosingOf(update, listed, now) && update.id != listed[|listed| - 1].id
  {
    var g := listed[..|listed| - 1];
    var k :| 0 <= k < |g| && g[k].status != Completed && g[k].status != Dismissed && update == g[k].(status := Completed, lastSeenAt := now);
    assert listed[k] == g[k];
  }

  lemma ClosingOfLast(listed: seq<Opportunity>, pursuits: seq<Pursuit>, now: int)
    requires listed != [] && EndsByPursuit(listed[|listed| - 1], pursuits)
    ensures ClosingOf(listed[|listed| - 1].(status := Completed, lastSeenAt := now), listed, now)
  {
    hide PursuitOf;
  }

  lemma {:induction false} SaveAllMoves(o: Oracle, s: State, updates: seq<Opportunity>, now: int)
    requires Filed(s) && UniqueFingerprints(s.items)
    requires forall k :: 0 <= k < |updates| ==>
      updates[k].id in s.items && updates[k].id != 0 && ScanMoves(s.items[updates[k].id], updates[k], now)
    requires DistinctRecords(updates)
    ensures ScanKeeps(s, SaveAll(o, s, updates).0, now) && Outside(s, SaveAll(o, s, updates).0, updates)
  {
    hide SaveIn, UniqueFingerprints, Filed, Among, Outside, ScanMoves;
    if updates == [] {
      Unmoved(s, now);
      NothingListed(s);
    } else {
      var n := |updates| - 1;
      SaveAllMoves(o, s, updates[..n], now);
      var (before, _, failed) := SaveAll(o, s, updates[..n]);
      if failed {
        CloseOneMoves(o, s, before, updates, before, now);
      } else {
        var item := updates[n];
        assert !Among(item.id, updates[..n]) by { NotAmong(updates); }
        StillStored(s, before, updates[..n], s.items[item.id].(id := item.id)) by { StoredUnderId(s, item.id); }
        StoredUnderId(s, item.id);
        SaveMoves(o, before, item, now);
        ScanKeepsTransitive(s, before, SaveIn(o, before, item).0, now);
        CloseOneMoves(o, s, before, updates, SaveIn(o, before, item).0, now);
      }
    }
  }

  lemma NotAmong(updates: seq<Opportunity>)
    requires updates != [] && DistinctRecords(updates)
    ensures !Among(updates[|updates| - 1].id, updates[..|updates| - 1])
  {}

  lemma StoredUnderId(s: State, id: nat)
    requires Filed(s) && id in s.items
    ensures s.items[id].id == id && s.items[id].(id := id) == s.items[id] && id != 0
  {}

  lemma CloseMoves(o: Oracle, s: State, listed: seq<Opportunity>, ended: set<nat>, pursuits: seq<Pursuit>, now: int)
    requires Filed(s) && UniqueFingerprints(s.items) && Mirrors(s, listed)
    ensures ScanKeeps(s, CloseIn(o, s, listed, ended, pursuits, now).0, now)
  {
    hide SaveIn, UniqueFingerprints, Among, Outside, ScanMoves, CloseWorkflows, SaveAll, ClosedPursuitUpdates, ClosingOf;
    CloseWorkflowsMoves(o, s, listed, ended, now);
    var first := CloseWorkflows(o, s, listed, ended);
    if !first.failed {
      var updates := ClosedPursuitUpdates(first.listed, pursuits, now);
      UpdatesAreClosings(first.listed, pursuits, now);
      forall k | 0 <= k < |updates|
        ensures updates[k].id in first.state.items && updates[k].id != 0
        ensures ScanMoves(first.state.items[updates[k].id], updates[k], now)
      {
        assert ClosingOf(updates[k], first.listed, now);
        ClosingIsLegal(first.state, first.listed, updates[k], now);
      }
      SaveAllMoves(o, first.state, updates, now);
      ScanKeepsTransitive(s, first.state, SaveAll(o, first.state, updates).0, now);
    }
  }

  lemma ClosingIsLegal(s: State, listed: seq<Opportunity>, update: Opportunity, now: int)
    requires Filed(s) && Mirrors(s, listed) && ClosingOf(update, listed, now)
    ensures update.id in s.items && update.id != 0 && ScanMoves(s.items[update.id], update, now)
  {
    var k :| 0 <= k < |listed| && listed[k].status != Completed && listed[k].status != Dismissed
      && update == listed[k].(status := Completed, lastSeenAt := now);
    ClosesLegally(listed[k], now, now);
  }

  /** Storing the same candidates again creates nothing. */
  lemma {:induction false} StoredIsKnown(o: Oracle, s: State, candidates: seq<Opportunity>, policy: Policy, now: int, checkOwner: bool)
    requires Filed(s) && UniqueFingerprints(s.items) && Candidates(candidates)
    requires !StoreAll(o, s, candidates, policy, now, checkOwner).failed
    ensures AllKnown(StoreAll(o, s, candidates, policy, now, checkOwner).state.items, candidates, policy)
  {
    hide StoreOne, UniqueFingerprints, Filed, Known, ScanMoves;
    if candidates != [] {
      var n := |candidates| - 1;
      var before := StoreAll(o, s, candidates[..n], policy, now, checkOwner);
      var after := StoreAll(o, s, candidates, policy, now, checkOwner);
      StoredIsKnown(o, s, candidates[..n], policy, now, checkOwner);
      StoreAllMoves(o, s, candidates[..n], policy, now, checkOwner);
      StoreOneMoves(o, before.state, before.counts, candidates[n], policy, now, checkOwner);
      if !Below(candidates[n], policy) { StoreOneKnows(o, before.state, before.counts, candidates[n], policy, now, checkOwner); }
      forall i | 0 <= i < n && !Below(candidates[i], policy) ensures Known(after.state.items, candidates[i].fingerprint) {
        assert candidates[..n][i] == candidates[i];
        KnownStays(before.state, after.state, candidates[i].fingerprint, now);
      }
    }
  }

  ghost predicate AllKnown(items: map<nat, Opportunity>, candidates: seq<Opportunity>, policy: Policy) {
    forall i :: 0 <= i < |candidates| && !Below(candidates[i], policy) ==> Known(items, candidates[i].fingerprint)
  }

  lemma KnownStays(s: State, t: State, fingerprint: string, now: int)
    requires ScanKeeps(s, t, now) && Known(s.items, fingerprint)
    ensures Known(t.items, fingerprint)
  {
    hide Filed, UniqueFingerprints;
    var id :| Holds(s.items, fingerprint, id);
    assert Holds(t.items, fingerprint, id);
  }

  lemma StoreOneKnows(o: Oracle, s: State, n: Counters, candidate: Opportunity, policy: Policy, now: int, checkOwner: bool)
    requires Filed(s) && UniqueFingerprints(s.items) && candidate.id == 0
    requires !StoreOne(o, s, n, candidate, policy, now, checkOwner).failed && !Below(candidate, policy)
    ensures Known(StoreOne(o, s, n, candidate, policy, now, checkOwner).state.items, candidate.fingerprint)
  {
    hide SaveIn, Below, UniqueFingerprints;
    var t := StoreOne(o, s, n, candidate, policy, now, checkOwner).state;
    if Known(s.items, candidate.fingerprint) {
      var id := Find(s.items, candidate.fingerprint);
      SaveMoves(o, s, Refreshed(s.items[id], candidate, now), now);
      assert Holds(t.items, candidate.fingerprint, id);
    } else {
      SaveAdds(o, s, candidate.(lastSeenAt := now, status := Proposed), now);
    }
  }

  lemma {:induction false} KnownCreatesNone(o: Oracle, s: State, candidates: seq<Opportunity>, policy: Policy, now: int, checkOwner: bool)
    requires Filed(s) && UniqueFingerprints(s.items) && Candidates(candidates) && AllKnown(s.items, candidates, policy)
    ensures StoreAll(o, s, candidates, policy, now, checkOwner).counts.created == 0
    ensures StoreAll(o, s, candidates, policy, now, checkOwner).state.items.Keys == s.items.Keys
  {
    hide StoreOne, UniqueFingerprints, Filed, Known, ScanMoves;
    if candidates != [] {
      var n := |candidates| - 1;
      forall i | 0 <= i < n && !Below(candidates[..n][i], policy) ensures Known(s.items, candidates[..n][i].fingerprint) {}
      KnownCreatesNone(o, s, candidates[..n], policy, now, checkOwner);
      StoreAllMoves(o, s, candidates[..n], policy, now, checkOwner);
      var before := StoreAll(o, s, candidates[..n], policy, now, checkOwner);
      if !before.failed {
        if !Below(candidates[n], policy) { KnownStays(s, before.state, candidates[n].fingerprint, now); }
        KnownIsUpdated(o, before.state, before.counts, candidates[n], policy, now, checkOwner);
      }
    }
  }

  lemma KnownIsUpdated(o: Oracle, s: State, n: Counters, candidate: Opportunity, policy: Policy, now: int, checkOwner: bool)
    requires Filed(s) && (Below(candidate, policy) || Known(s.items, candidate.fingerprint))
    ensures StoreOne(o, s, n, candidate, policy, now, checkOwner).counts.created == n.created
    ensures StoreOne(o, s, n, candidate, policy, now, checkOwner).state.items.Keys == s.items.Keys
  {
    hide Below, Cooled;
  }

  lemma RestoringCreatesNone(o: Oracle, s: State, candidates: seq<Opportunity>, policy: Policy, now: int, later: int, checkOwner: bool)
    requires Filed(s) && UniqueFingerprints(s.items) && Candidates(candidates)
    requires !StoreAll(o, s, candidates, policy, now, checkOwner).failed
    ensures var once := StoreAll(o, s, candidates, policy, now, checkOwner).state;
      var twice := StoreAll(o, once, candidates, policy, later, checkOwner);
      twice.counts.created == 0 && twice.state.items.Keys == once.items.Keys
  {
    hide StoreAll, UniqueFingerprints, Filed, AllKnown, ScanMoves;
    StoredIsKnown(o, s, candidates, policy, now, checkOwner);
    StoreAllMoves(o, s, candidates, policy, now, checkOwner);
    KnownCreatesNone(o, StoreAll(o, s, candidates, policy, now, checkOwner).state, candidates, policy, later, checkOwner);
  }

  /** What storing one offered candidate leaves under its fingerprint: its details as
      offered, proposed if it is new, and a dismissed one proposed again if and only
      if its cooldown is over. */
  lemma StoredAsOffered(o: Oracle, s: State, n: Counters, candidate: Opportunity, policy: Policy, now: int, checkOwner: bool)
    requires Filed(s) && UniqueFingerprints(s.items) && candidate.id == 0
    requires candidate.priority >= policy.minimumScore && candidate.confidence >= policy.minimumConfidence
    requires !StoreOne(o, s, n, candidate, policy, now, checkOwner).failed
    ensures var t := StoreOne(o, s, n, candidate, policy, now, checkOwner).state;
      && Known(t.items, candidate.fingerprint)
      && var b := t.items[Find(t.items, candidate.fingerprint)];
         && b.details == candidate.details && b.priority == candidate.priority && b.confidence == candidate.confidence && b.lastSeenAt == now
         && (!Known(s.items, candidate.fingerprint) ==> b.status == Proposed && b.workflowId == candidate.workflowId && b.owner == candidate.owner)
         && (Known(s.items, candidate.fingerprint) ==>
               var a := s.items[Find(s.items, candidate.fingerprint)];
               && b.id == a.id && b.workflowId == a.workflowId
               && (a.status == Dismissed ==> (b.status == Proposed <==> a.cooldownUntil == None || a.cooldownUntil.value < now))
               && (a.status != Dismissed ==> b.status == a.status))
  {
    hide SaveIn, UniqueFingerprints, Filed;
    StoreOneKnows(o, s, n, candidate, policy, now, checkOwner);
    StoreOneMoves(o, s, n, candidate, policy, now, checkOwner);
    var t := StoreOne(o, s, n, candidate, policy, now, checkOwner).state;
    var id := Find(t.items, candidate.fingerprint);
    if Known(s.items, candidate.fingerprint) {
      var was := Find(s.items, candidate.fingerprint);
      StoredUnderId(s, was);
      SaveMoves(o, s, Refreshed(s.items[was], candidate, now), now);
      OneHolder(t.items, candidate.fingerprint, id, was);
    } else {
      SavedAsNew(o, s, candidate.(lastSeenAt := now, status := Proposed));
      OneHolder(t.items, candidate.fingerprint, id, s.next);
    }
  }

  /** How one candidate ends: below either threshold it is only counted as filtered;
      otherwise it fails if and only if another owner's record has its fingerprint
      in an owner's scan or the save fails, and else counts as updated or created. */
  lemma CandidateEnds(o: Oracle, s: State, n: Counters, candidate: Opportunity, policy: Policy, now: int, checkOwner: bool)
    ensures var t := StoreOne(o, s, n, candidate, policy, now, checkOwner);
      if candidate.priority < policy.minimumScore || candidate.confidence < policy.minimumConfidence then
        t == Stored(s, n.(filtered := n.filtered + 1), false)
      else if !Known(s.items, candidate.fingerprint) then
        t.failed == (o(s.saves) != Fine) && (!t.failed ==> t.counts == n.(created := n.created + 1))
      else
        var stranger := checkOwner && Text.Trim(s.items[Find(s.items, candidate.fingerprint)].owner) != Text.Trim(candidate.owner);
        && (t.failed <==> stranger || o(s.saves) != Fine)
        && (stranger ==> t.state == s) && (!t.failed ==> t.counts == n.(updated := n.updated + 1))
  {
    hide Cooled;
  }

  ghost predicate Offered(candidates: seq<Opportunity>, policy: Policy, fingerprint: string) {
    exists i :: 0 <= i < |candidates| && candidates[i].fingerprint == fingerprint
      && candidates[i].priority >= policy.minimumScore && candidates[i].confidence >= policy.minimumConfidence
  }

  lemma OfferedMore(candidates: seq<Opportunity>, policy: Policy, fingerprint: string)
    requires candidates != []
    ensures var n := |candidates| - 1;
      Offered(candidates, policy, fingerprint) <==>
        Offered(candidates[..n], policy, fingerprint)
        || (candidates[n].fingerprint == fingerprint && candidates[n].priority >= policy.minimumScore && candidates[n].confidence >= policy.minimumConfidence)
  {
    var n := |candidates| - 1;
    if Offered(candidates[..n], policy, fingerprint) {
      var i :| 0 <= i < n && candidates[..n][i].fingerprint == fingerprint
        && candidates[..n][i].priority >= policy.minimumScore && candidates[..n][i].confidence >= policy.minimumConfidence;
      assert candidates[i].fingerprint == fingerprint;
    }
    if Offered(candidates, policy, fingerprint) {
      var i :| 0 <= i <= n && candidates[i].fingerprint == fingerprint
        && candidates[i].priority >= policy.minimumScore && candidates[i].confidence >= policy.minimumConfidence;
      if i < n { assert candidates[..n][i].fingerprint == fingerprint; }
    }
  }

  lemma StoreOneKnownIff(o: Oracle, s: State, n: Counters, candidate: Opportunity, policy: Policy, now: int, checkOwner: bool, fingerprint: string)
    requires Filed(s) && UniqueFingerprints(s.items) && candidate.id == 0
    requires !StoreOne(o, s, n, candidate, policy, now, checkOwner).failed
    ensures Known(StoreOne(o, s, n, candidate, policy, now, checkOwner).state.items, fingerprint) <==>
      Known(s.items, fingerprint)
      || (candidate.fingerprint == fingerprint && candidate.priority >= policy.minimumScore && candidate.confidence >= policy.minimumConfidence)
  {
    hide UniqueFingerprints, Cooled;
    var t := StoreOne(o, s, n, candidate, policy, now, checkOwner).state;
    StoreOneMoves(o, s, n, candidate, policy, now, checkOwner);
    if Known(s.items, fingerprint) { KnownStays(s, t, fingerprint, now); }
    if Known(s.items, candidate.fingerprint) {
      StoredUnderId(s, Find(s.items, candidate.fingerprint));
    }
    if Known(t.items, fingerprint) && !Known(s.items, fingerprint) {
      var id :| Holds(t.items, fingerprint, id);
      assert id in s.items ==> !Holds(s.items, fingerprint, id);
    } else if !Known(s.items, candidate.fingerprint) && t != s {
      SavedAsNew(o, s, candidate.(lastSeenAt := now, status := Proposed));
      assert Holds(t.items, candidate.fingerprint, s.next) || Below(candidate, policy);
    }
  }

  /** After storing without a failure the records are those that were there and one
      for each fingerprint offered at or above both thresholds, and no other. */
  lemma {:induction false} StoredIffOffered(o: Oracle, s: State, candidates: seq<Opportunity>, policy: Policy, now: int, checkOwner: bool, fingerprint: string)
    requires Filed(s) && UniqueFingerprints(s.items) && Candidates(candidates)
    requires !StoreAll(o, s, candidates, policy, now, checkOwner).failed
    ensures Known(StoreAll(o, s, candidates, policy, now, checkOwner).state.items, fingerprint) <==>
      Known(s.items, fingerprint) || Offered(candidates, policy, fingerprint)
  {
    hide StoreOne, Filed, UniqueFingerprints, Known, Offered;
    if candidates == [] {
      NothingOffered(policy, fingerprint);
    } else {
      var n := |candidates| - 1;
      var before := StoreAll(o, s, candidates[..n], policy, now, checkOwner);
      StoredIffOffered(o, s, candidates[..n], policy, now, checkOwner, fingerprint);
      StoreAllMoves(o, s, candidates[..n], policy, now, checkOwner);
      StoreOneKnownIff(o, before.state, before.counts, candidates[n], policy, now, checkOwner, fingerprint);
      OfferedMore(candidates, policy, fingerprint);
    }
  }

  lemma NothingOffered(policy: Policy, fingerprint: string)
    ensures !Offered([], policy, fingerprint)
  {}

  lemma OneHolder(items: map<nat, Opportunity>, fingerprint: string, i: nat, j: nat)
    requires UniqueFingerprints(items) && Holds(items, fingerprint, i) && Holds(items, fingerprint, j)
    ensures i == j
  {}

  lemma SavedAsNew(o: Oracle, s: State, item: Opportunity)
    requires item.id == 0 && SaveIn(o, s, item).1
    ensures s.next in SaveIn(o, s, item).0.items && SaveIn(o, s, item).0.items[s.next] == item.(id := s.next)
  {}

  // Exactly which records a close changes

  predicate Ends(item: Opportunity, ended: set<nat>, pursuits: seq<Pursuit>) {
    EndsByWorkflow(item, ended) || EndsByPursuit(item, pursuits)
  }

  function AfterWorkflow(item: Opportunity, ended: set<nat>): Opportunity {
    if EndsByWorkflow(item, ended) then item.(status := Completed) else item
  }

  /** What a close makes of a listed record; a scan notes its time only on those
      that end with their pursuit. */
  function Ended(item: Opportunity, ended: set<nat>, pursuits: seq<Pursuit>, now: int): Opportunity {
    if EndsByWorkflow(item, ended) then item.(status := Completed)
    else if EndsByPursuit(item, pursuits) then ClosedByPursuit(item, now)
    else item
  }

  function EndCount(listed: seq<Opportunity>, ended: set<nat>, pursuits: seq<Pursuit>): nat {
    if listed == [] then 0
    else EndCount(listed[..|listed| - 1], ended, pursuits) + if Ends(listed[|listed| - 1], ended, pursuits) then 1 else 0
  }

  /** Nothing changed except some of these records, to these forms. */
  ghost predicate Only(s: State, t: State, forms: seq<Opportunity>) {
    t.items.Keys == s.items.Keys
    && forall id :: id in s.items ==> t.items[id] == s.items[id] || t.items[id] in forms
  }

  ghost predicate AllStored(t: State, forms: seq<Opportunity>) {
    forall k :: 0 <= k < |forms| ==> forms[k].id in t.items && t.items[forms[k].id] == forms[k]
  }

  lemma SaveOnly(o: Oracle, s: State, t: State, forms: seq<Opportunity>, item: Opportunity)
    requires Only(s, t, forms) && item.id != 0 && item.id in t.items
    ensures Only(s, SaveIn(o, t, item).0, forms + [item])
    ensures SaveIn(o, t, item).0.saves == t.saves + 1
  {
    forall x ensures x in forms + [item] <==> x in forms || x == item {}
  }

  lemma OnlyMore(s: State, t: State, forms: seq<Opportunity>, more: seq<Opportunity>)
    requires Only(s, t, forms) && forall x :: x in forms ==> x in more
    ensures Only(s, t, more)
  {}

  /** The first loop: which forms it lists, how many it saved, and what it changed. */
  lemma {:induction false} CloseWorkflowsExact(o: Oracle, s: State, listed: seq<Opportunity>, ended: set<nat>, pursuits: seq<Pursuit>, now: int)
    requires Filed(s) && UniqueFingerprints(s.items) && Mirrors(s, listed)
    ensures var r := CloseWorkflows(o, s, listed, ended);
      && Only(s, r.state, Forms(listed, ended))
      && (!r.failed ==>
            && r.listed == Forms(listed, ended) && r.state.saves == s.saves + r.updated
            && r.updated + |ClosedPursuitUpdates(r.listed, pursuits, now)| == EndCount(listed, ended, pursuits))
  {
    hide SaveIn, UniqueFingerprints, Filed, Mirrors, Only, EndsByWorkflow, EndsByPursuit, ClosedByPursuit, ScanMoves, Outside, SameIds;
    if listed == [] {
      NothingChanged(s, []);
    } else {
      var n := |listed| - 1;
      MirrorsPrefix(s, listed);
      CloseWorkflowsExact(o, s, listed[..n], ended, pursuits, now);
      CloseWorkflowsMoves(o, s, listed[..n], ended, now);
      var before, item := CloseWorkflows(o, s, listed[..n], ended), listed[n];
      var forms := Forms(listed[..n], ended);
      assert Forms(listed, ended) == forms + [AfterWorkflow(item, ended)];
      if before.failed {
        OnlyMore(s, before.state, forms, Forms(listed, ended));
      } else {
        StillStored(s, before.state, listed[..n], item);
        StoredUnderId(s, item.id);
        UpdatesSnoc(forms, AfterWorkflow(item, ended), pursuits, now);
        EndsOnce(item, ended, pursuits);
        if EndsByWorkflow(item, ended) {
          SaveOnly(o, s, before.state, forms, item.(status := Completed));
        } else {
          OnlyMore(s, before.state, forms, Forms(listed, ended));
        }
      }
    }
  }

  function Forms(listed: seq<Opportunity>, ended: set<nat>): seq<Opportunity> {
    if listed == [] then []
    else Forms(listed[..|listed| - 1], ended) + [AfterWorkflow(listed[|listed| - 1], ended)]
  }

  lemma NothingChanged(s: State, forms: seq<Opportunity>)
    ensures Only(s, s, forms)
  {}

  lemma UpdatesSnoc(items: seq<Opportunity>, item: Opportunity, pursuits: seq<Pursuit>, now: int)
    ensures ClosedPursuitUpdates(items + [item], pursuits, now) ==
      ClosedPursuitUpdates(items, pursuits, now) + if EndsByPursuit(item, pursuits) then [ClosedByPursuit(item, now)] else []
  {
    hide EndsByPursuit, ClosedByPursuit;
    assert (items + [item])[..|items|] == items;
  }

  /** A record closed with its workflow is not closed again with its pursuit. */
  lemma EndsOnce(item: Opportunity, ended: set<nat>, pursuits: seq<Pursuit>)
    ensures EndsByPursuit(AfterWorkflow(item, ended), pursuits) <==> !EndsByWorkflow(item, ended) && EndsByPursuit(item, pursuits)
  {
    hide PursuitOf;
  }

  lemma {:induction false} SaveAllExact(o: Oracle, s: State, updates: seq<Opportunity>)
    requires Filed(s) && DistinctRecords(updates)
    requires forall k :: 0 <= k < |updates| ==> updates[k].id in s.items && updates[k].id != 0
    ensures var (t, n, failed) := SaveAll(o, s, updates);
      && Only(s, t, updates)
      && (!failed ==> n == |updates| && AllStored(t, updates) && t.saves == s.saves + n)
  {
    hide SaveIn, Filed, Only, DistinctRecords;
    if updates == [] {
      NothingChanged(s, updates);
    } else {
      var n := |updates| - 1;
      DistinctPrefix(updates);
      SaveAllExact(o, s, updates[..n]);
      var (before, _, failed) := SaveAll(o, s, updates[..n]);
      assert updates[..n] + [updates[n]] == updates;
      if failed {
        OnlyMore(s, before, updates[..n], updates);
      } else {
        OnlyKeys(s, before, updates[..n]);
        SaveOnly(o, s, before, updates[..n], updates[n]);
        if SaveIn(o, before, updates[n]).1 { StoredMore(o, before, updates); }
      }
    }
  }

  lemma OnlyKeys(s: State, t: State, forms: seq<Opportunity>)
    requires Only(s, t, forms)
    ensures t.items.Keys == s.items.Keys
  {}

  lemma DistinctPrefix(updates: seq<Opportunity>)
    requires updates != [] && DistinctRecords(updates)
    ensures DistinctRecords(updates[..|updates| - 1])
  {}

  lemma StoredMore(o: Oracle, t: State, updates: seq<Opportunity>)
    requires updates != [] && DistinctRecords(updates) && AllStored(t, updates[..|updates| - 1]) && updates[|updates| - 1].id != 0
    requires SaveIn(o, t, updates[|updates| - 1]).1
    ensures AllStored(SaveIn(o, t, updates[|updates| - 1]).0, updates)
  {
    var n := |updates| - 1;
    forall k | 0 <= k < n ensures updates[..n][k] == updates[k] && updates[k].id != updates[n].id {}
  }

  predicate KeptOrEnded(a: Opportunity, b: Opportunity, listed: seq<Opportunity>, ended: set<nat>, pursuits: seq<Pursuit>, now: int) {
    b == a || (a in listed && Ends(a, ended, pursuits) && b == Ended(a, ended, pursuits, now))
  }

  /** The last pursuit listed under the ID is archived or completed. */
  ghost predicate PursuitEnded(pursuits: seq<Pursuit>, id: string) {
    exists k :: 0 <= k < |pursuits| && pursuits[k].id == Some(id)
      && (pursuits[k].archived || Text.Lower(pursuits[k].status) == "completed")
      && forall j :: k < j < |pursuits| ==> pursuits[j].id != Some(id)
  }

  lemma {:induction false} LastPursuit(pursuits: seq<Pursuit>, id: string)
    ensures var found := PursuitOf(pursuits, id);
      if found == None then forall k :: 0 <= k < |pursuits| ==> pursuits[k].id != Some(id)
      else exists k :: 0 <= k < |pursuits| && pursuits[k] == found.value && pursuits[k].id == Some(id)
             && forall j :: k < j < |pursuits| ==> pursuits[j].id != Some(id)
  {
    if pursuits != [] {
      var n := |pursuits| - 1;
      LastPursuit(pursuits[..n], id);
      if pursuits[n].id == Some(id) {
        assert pursuits[n] == PursuitOf(pursuits, id).value;
      } else if PursuitOf(pursuits[..n], id).Some? {
        var k :| 0 <= k < n && pursuits[..n][k] == PursuitOf(pursuits[..n], id).value && pursuits[..n][k].id == Some(id)
          && forall j :: k < j < n ==> pursuits[..n][j].id != Some(id);
        assert pursuits[k] == PursuitOf(pursuits, id).value;
        forall j | k < j < |pursuits| ensures pursuits[j].id != Some(id) { if j < n { assert pursuits[..n][j] == pursuits[j]; } }
      } else {
        forall k | 0 <= k < |pursuits| ensures pursuits[k].id != Some(id) { if k < n { assert pursuits[..n][k] == pursuits[k]; } }
      }
    }
  }

  lemma PursuitEndedIff(pursuits: seq<Pursuit>, id: string)
    ensures PursuitEnded(pursuits, id) <==>
      PursuitOf(pursuits, id).Some? && (PursuitOf(pursuits, id).value.archived || Text.Lower(PursuitOf(pursuits, id).value.status) == "completed")
  {
    hide Text.Lower;
    LastPursuit(pursuits, id);
    if PursuitEnded(pursuits, id) {
      var k :| 0 <= k < |pursuits| && pursuits[k].id == Some(id)
        && (pursuits[k].archived || Text.Lower(pursuits[k].status) == "completed")
        && forall j :: k < j < |pursuits| ==> pursuits[j].id != Some(id);
      var i :| 0 <= i < |pursuits| && pursuits[i] == PursuitOf(pursuits, id).value && pursuits[i].id == Some(id)
        && forall j :: i < j < |pursuits| ==> pursuits[j].id != Some(id);
      assert i == k;
    }
  }

  /** What a close makes of a record, said over its fields: an open one is completed
      if and only if its workflow has ended or it stems from a pursuit that has;
      nothing else about it changes, except that the latter are noted as seen. */
  lemma EndedSays(item: Opportunity, ended: set<nat>, pursuits: seq<Pursuit>, now: int)
    ensures var e := Ended(item, ended, pursuits, now);
      var isOpen := item.status == Proposed || item.status == Accepted;
      var byWork := item.workflowId.Some? && item.workflowId.value in ended;
      var byPursuit := "pursuit" <= Text.Lower(Text.Trim(item.sourceType)) && PursuitEnded(pursuits, Text.Trim(item.sourceId));
      && e == item.(status := e.status, lastSeenAt := e.lastSeenAt)
      && e.status == (if isOpen && (byWork || byPursuit) then Completed else item.status)
      && e.lastSeenAt == (if isOpen && !byWork && byPursuit then now else item.lastSeenAt)
  {
    hide Text.Lower, Text.Trim, PursuitEnded;
    PursuitEndedIff(pursuits, Text.Trim(item.sourceId));
  }

  /** The records a close leaves open are those that neither loop ends. */
  lemma EndedIsCompletedIff(item: Opportunity, ended: set<nat>, pursuits: seq<Pursuit>, now: int)
    ensures Ended(item, ended, pursuits, now).status == Completed <==> item.status == Completed || Ends(item, ended, pursuits)
    ensures !Ends(item, ended, pursuits) ==> Ended(item, ended, pursuits, now) == item
  {
    hide EndsByWorkflow, EndsByPursuit;
  }

  /** Whatever fails, a close only puts listed records into their closed form. With
      no failed save every listed record that ends is completed, once, every other
      one is as it was, and the count is that of the records that ended. */
  lemma CloseIsExact(o: Oracle, s: State, listed: seq<Opportunity>, ended: set<nat>, pursuits: seq<Pursuit>, now: int)
    requires Filed(s) && UniqueFingerprints(s.items) && Mirrors(s, listed)
    ensures var (t, n, failed) := CloseIn(o, s, listed, ended, pursuits, now);
      && t.items.Keys == s.items.Keys
      && (forall id :: id in s.items ==> KeptOrEnded(s.items[id], t.items[id], listed, ended, pursuits, now))
      && (!failed ==>
            && (forall k :: 0 <= k < |listed| ==> t.items[listed[k].id] == Ended(listed[k], ended, pursuits, now))
            && n == EndCount(listed, ended, pursuits) && t.saves == s.saves + n)
  {
    hide SaveIn, UniqueFingerprints, Filed, CloseWorkflows, SaveAll, ClosedPursuitUpdates, EndsByWorkflow, EndsByPursuit,
      ScanMoves, Outside, Forms, EndCount, Mirrors, Only, AllStored, DistinctRecords, Ended, Ends, SameIds, AllIn;
    CloseWorkflowsExact(o, s, listed, ended, pursuits, now);
    CloseWorkflowsMoves(o, s, listed, ended, now);
    CloseMoves(o, s, listed, ended, pursuits, now);
    FirstLoopOnly(s, CloseWorkflows(o, s, listed, ended).state, listed, ended, pursuits, now);
    var first, forms := CloseWorkflows(o, s, listed, ended), Forms(listed, ended);
    if !first.failed {
      var updates := ClosedPursuitUpdates(forms, pursuits, now);
      UpdatesAreStored(first.state, forms, pursuits, now);
      AllInStored(first.state, updates);
      SaveAllExact(o, first.state, updates);
      TwoLoops(s, first.state, SaveAll(o, first.state, updates).0, listed, ended, pursuits, now);
      if !SaveAll(o, first.state, updates).2 {
        AllEnded(s, first.state, SaveAll(o, first.state, updates).0, listed, ended, pursuits, now);
      }
    }
  }

  lemma AllInStored(t: State, updates: seq<Opportunity>)
    requires AllIn(t, updates)
    ensures forall k :: 0 <= k < |updates| ==> updates[k].id in t.items && updates[k].id != 0
  {}

  lemma FirstLoopOnly(s: State, t: State, listed: seq<Opportunity>, ended: set<nat>, pursuits: seq<Pursuit>, now: int)
    requires Filed(s) && Filed(t) && Mirrors(s, listed) && Only(s, t, Forms(listed, ended))
    ensures t.items.Keys == s.items.Keys
    ensures forall id :: id in s.items ==> KeptOrEnded(s.items[id], t.items[id], listed, ended, pursuits, now)
  {
    hide EndsByWorkflow, EndsByPursuit, Forms, KeptOrEnded, Mirrors;
    FormsAre(s, listed, ended, pursuits, now);
    forall id | id in s.items ensures KeptOrEnded(s.items[id], t.items[id], listed, ended, pursuits, now) {
      assert t.items[id].id == id;
      KeptIsKept(s.items[id], listed, ended, pursuits, now);
    }
  }

  lemma KeptIsKept(a: Opportunity, listed: seq<Opportunity>, ended: set<nat>, pursuits: seq<Pursuit>, now: int)
    ensures KeptOrEnded(a, a, listed, ended, pursuits, now)
  {
    hide Ends, Ended;
  }

  /** A form in the first loop's list is a listed record as it was or as it ends. */
  lemma {:induction false} FormsMembers(listed: seq<Opportunity>, ended: set<nat>)
    ensures |Forms(listed, ended)| == |listed|
    ensures forall k :: 0 <= k < |listed| ==> Forms(listed, ended)[k] == AfterWorkflow(listed[k], ended)
  {
    hide AfterWorkflow;
    if listed != [] { FormsMembers(listed[..|listed| - 1], ended); }
  }

  lemma FormsAre(s: State, listed: seq<Opportunity>, ended: set<nat>, pursuits: seq<Pursuit>, now: int)
    requires Filed(s) && Mirrors(s, listed)
    ensures |Forms(listed, ended)| == |listed|
    ensures forall k :: 0 <= k < |listed| ==> Forms(listed, ended)[k] == AfterWorkflow(listed[k], ended)
    ensures forall f :: f in Forms(listed, ended) ==>
      f.id in s.items && KeptOrEnded(s.items[f.id], f, listed, ended, pursuits, now)
  {
    hide EndsByWorkflow, EndsByPursuit, Forms;
    FormsMembers(listed, ended);
    forall f | f in Forms(listed, ended)
      ensures f.id in s.items && KeptOrEnded(s.items[f.id], f, listed, ended, pursuits, now)
    {
      var k :| 0 <= k < |listed| && Forms(listed, ended)[k] == f;
      assert s.items[listed[k].id] == listed[k];
    }
  }

  lemma UpdatesAreStored(t: State, forms: seq<Opportunity>, pursuits: seq<Pursuit>, now: int)
    requires Filed(t) && Mirrors(t, forms)
    ensures var updates := ClosedPursuitUpdates(forms, pursuits, now);
      DistinctRecords(updates) && AllIn(t, updates)
  {
    hide EndsByPursuit, ClosedPursuitUpdates, DistinctRecords;
    var updates := ClosedPursuitUpdates(forms, pursuits, now);
    MirrorsDistinct(t, forms);
    UpdatesAreClosings(forms, pursuits, now);
    forall k | 0 <= k < |updates| ensures updates[k].id in t.items && updates[k].id != 0 {
      assert updates[k] in updates;
      UpdateMembers(forms, pursuits, now, updates[k]);
      var item :| item in forms && EndsByPursuit(item, pursuits) && updates[k] == ClosedByPursuit(item, now);
      var i :| 0 <= i < |forms| && forms[i] == item;
    }
  }

  predicate AllIn(t: State, updates: seq<Opportunity>) {
    forall k :: 0 <= k < |updates| ==> updates[k].id in t.items && updates[k].id != 0
  }

  lemma MirrorsDistinct(t: State, forms: seq<Opportunity>)
    requires Mirrors(t, forms)
    ensures DistinctRecords(forms)
  {}

  /** An update of the second loop is the closed form of a record the first left open. */
  lemma UpdateEnds(s: State, listed: seq<Opportunity>, ended: set<nat>, pursuits: seq<Pursuit>, now: int, u: Opportunity)
    requires Filed(s) && Mirrors(s, listed) && u in ClosedPursuitUpdates(Forms(listed, ended), pursuits, now)
    ensures u.id in s.items && s.items[u.id] in listed
    ensures Ends(s.items[u.id], ended, pursuits) && u == Ended(s.items[u.id], ended, pursuits, now)
  {
    hide EndsByWorkflow, EndsByPursuit, ClosedPursuitUpdates, Forms;
    var forms := Forms(listed, ended);
    UpdateMembers(forms, pursuits, now, u);
    var f :| f in forms && EndsByPursuit(f, pursuits) && u == ClosedByPursuit(f, now);
    FormsMembers(listed, ended);
    var k :| 0 <= k < |forms| && forms[k] == f;
    EndsOnce(listed[k], ended, pursuits);
    assert s.items[listed[k].id] == listed[k];
  }

  lemma TwoLoops(s: State, t: State, u: State, listed: seq<Opportunity>, ended: set<nat>, pursuits: seq<Pursuit>, now: int)
    requires Filed(s) && Mirrors(s, listed) && Only(s, t, Forms(listed, ended))
    requires Filed(t) && Only(t, u, ClosedPursuitUpdates(Forms(listed, ended), pursuits, now)) && Filed(u)
    ensures u.items.Keys == s.items.Keys
    ensures forall id :: id in s.items ==> KeptOrEnded(s.items[id], u.items[id], listed, ended, pursuits, now)
  {
    hide EndsByWorkflow, EndsByPursuit, ClosedPursuitUpdates, Forms, Ended, Ends;
    FormsAre(s, listed, ended, pursuits, now);
    forall id | id in s.items ensures KeptOrEnded(s.items[id], u.items[id], listed, ended, pursuits, now) {
      assert u.items[id].id == id && t.items[id].id == id && s.items[id].id == id;
      if u.items[id] != t.items[id] { UpdateEnds(s, listed, ended, pursuits, now, u.items[id]); }
    }
  }

  lemma AllEnded(s: State, t: State, u: State, listed: seq<Opportunity>, ended: set<nat>, pursuits: seq<Pursuit>, now: int)
    requires Filed(s) && Mirrors(s, listed) && Mirrors(t, Forms(listed, ended)) && Filed(t) && Filed(u)
    requires var updates := ClosedPursuitUpdates(Forms(listed, ended), pursuits, now); Only(t, u, updates) && AllStored(u, updates)
    ensures forall k :: 0 <= k < |listed| ==> listed[k].id in u.items && u.items[listed[k].id] == Ended(listed[k], ended, pursuits, now)
  {
    hide EndsByWorkflow, EndsByPursuit, ClosedPursuitUpdates, Forms;
    var forms, updates := Forms(listed, ended), ClosedPursuitUpdates(Forms(listed, ended), pursuits, now);
    FormsMembers(listed, ended);
    forall k | 0 <= k < |listed| ensures listed[k].id in u.items && u.items[listed[k].id] == Ended(listed[k], ended, pursuits, now) {
      var id := listed[k].id;
      EndsOnce(listed[k], ended, pursuits);
      assert forms[k].id == id && t.items[id] == forms[k] && forms[k] in forms;
      UpdateMembers(forms, pursuits, now, ClosedByPursuit(forms[k], now));
      if EndsByPursuit(forms[k], pursuits) {
        assert ClosedByPursuit(forms[k], now) in updates;
      } else if u.items[id] != t.items[id] {
        assert u.items[id].id == id;
        UpdateEnds(s, listed, ended, pursuits, now, u.items[id]);
      }
    }
  }

  // What storing does to the records that are there

  /** As it was, or proposed again after its cooldown. */
  predicate KeptOrRevived(a: Opportunity, b: Opportunity, now: int) {
    ScanMoves(a, b, now) && (b.status == a.status || (a.status == Dismissed && Cooled(a, now) && b.status == Proposed))
  }

  ghost predicate OnlyRevives(s: State, t: State, now: int) {
    forall id :: id in s.items ==> id in t.items && KeptOrRevived(s.items[id], t.items[id], now)
  }

  lemma OnlyRevivesTransitive(s: State, t: State, u: State, now: int)
    requires OnlyRevives(s, t, now) && OnlyRevives(t, u, now)
    ensures OnlyRevives(s, u, now)
  {
    forall id | id in s.items ensures id in u.items && KeptOrRevived(s.items[id], u.items[id], now) {
      assert KeptOrRevived(s.items[id], t.items[id], now) && KeptOrRevived(t.items[id], u.items[id], now);
    }
  }

  lemma StoreOneOnlyRevives(o: Oracle, s: State, n: Counters, candidate: Opportunity, policy: Policy, now: int, checkOwner: bool)
    requires Filed(s) && UniqueFingerprints(s.items) && candidate.id == 0
    ensures OnlyRevives(s, StoreOne(o, s, n, candidate, policy, now, checkOwner).state, now)
  {
    hide Below;
    if Known(s.items, candidate.fingerprint) { StoredUnderId(s, Find(s.items, candidate.fingerprint)); }
  }

  /** Storing candidates, however it ends, changes the status of no record that is
      there except a dismissed one's, which it proposes again after its cooldown. */
  lemma {:induction false} StoreAllOnlyRevives(o: Oracle, s: State, candidates: seq<Opportunity>, policy: Policy, now: int, checkOwner: bool)
    requires Filed(s) && UniqueFingerprints(s.items) && Candidates(candidates)
    ensures OnlyRevives(s, StoreAll(o, s, candidates, policy, now, checkOwner).state, now)
  {
    hide StoreOne, Filed, UniqueFingerprints, ScanMoves, OnlyRevives;
    if candidates == [] {
      NothingRevived(s, now);
    } else {
      var n := |candidates| - 1;
      StoreAllOnlyRevives(o, s, candidates[..n], policy, now, checkOwner);
      StoreAllMoves(o, s, candidates[..n], policy, now, checkOwner);
      var before := StoreAll(o, s, candidates[..n], policy, now, checkOwner);
      if !before.failed {
        StoreOneOnlyRevives(o, before.state, before.counts, candidates[n], policy, now, checkOwner);
        OnlyRevivesTransitive(s, before.state, StoreAll(o, s, candidates, policy, now, checkOwner).state, now);
      }
    }
  }

  lemma NothingRevived(s: State, now: int)
    ensures OnlyRevives(s, s, now)
  {}
}
