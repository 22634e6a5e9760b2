/** Outcome monitors: the bounded observation history, and the list of observations
    composed from it for one completed run. */
module Monitor {
  import opened Wrappers
  import opened Sorting
  import opened Text

  const MAX_HISTORY := 4096

  datatype Scope = Scope(owner: string, workspace: string)

  /** Everything a record's digest covers. Digests are taken to be injective, so
      the content stands for its digest. */
  datatype Content = Content(
    scope: Scope, targetId: string, outcomeId: string, indicatorId: string, sourceKind: string,
    value: real, observedAt: int, recordedAt: int, sourceDigest: string)

  datatype Observation = Observation(id: string, content: Content, digest: Content)

  datatype Run = Run(
    scope: Scope, targetId: string, outcomeId: string, indicatorId: string, sourceKind: string,
    finishedAt: int, observationId: string, observationDigest: Content, digest: string)

  datatype Window = Window(start: int, end: int)

  datatype Composed = Composed(
    id: string, scope: Scope, indicatorId: string, value: real, observedAt: int, recordedAt: int, sourceDigest: string)

  datatype Fault = InvalidInput | ScopeViolation

  // The history

  function Newest(all: seq<Observation>): seq<Observation> {
    if |all| > MAX_HISTORY then all[|all| - MAX_HISTORY..] else all
  }

  function AppendBounded(items: seq<Observation>, x: Observation): seq<Observation> {
    Newest(items + [x])
  }

  function AppendAll(items: seq<Observation>, xs: seq<Observation>): seq<Observation> {
    if xs == [] then items else AppendBounded(AppendAll(items, xs[..|xs| - 1]), xs[|xs| - 1])
  }

  function BoundedLimit(limit: int): nat {
    if limit <= 0 || limit > MAX_HISTORY then MAX_HISTORY else limit
  }

  /** The records up to the cutoff, newest first. */
  function Listed(source: seq<Observation>, cutoff: int): seq<Observation> {
    if source == [] then []
    else
      var last := source[|source| - 1];
      (if last.content.recordedAt <= cutoff then [last] else []) + Listed(source[..|source| - 1], cutoff)
  }

  function Take(s: seq<Observation>, n: nat): seq<Observation> {
    if |s| <= n then s else s[..n]
  }

  lemma ListedSnoc(s: seq<Observation>, x: Observation, cutoff: int)
    ensures Listed(s + [x], cutoff) == (if x.content.recordedAt <= cutoff then [x] else []) + Listed(s, cutoff)
  {
    assert (s + [x])[..|s|] == s;
  }

  method ListObservationsAt(source: seq<Observation>, cutoff: int, limit: int) returns (result: seq<Observation>)
    ensures result == Take(Listed(source, cutoff), BoundedLimit(limit))
    ensures |result| <= (if 0 < limit <= 4096 then limit else 4096)
    ensures forall x :: x in result ==> x in source && x.content.recordedAt <= cutoff
    ensures |result| < (if 0 < limit <= 4096 then limit else 4096) ==>
      forall x :: x in source && x.content.recordedAt <= cutoff ==> x in result
  {
    ListedMembers(source, cutoff);
    hide Listed;
    result := [];
    var index := |source| - 1;
    assert source[..|source|] == source;
    assert [] + Listed(source, cutoff) == Listed(source, cutoff);
    NoneListedYet(cutoff);
    while index >= 0 && |result| < BoundedLimit(limit)
      invariant -1 <= index < |source|
      invariant |result| <= BoundedLimit(limit)
      invariant Listed(source, cutoff) == result + Listed(source[..index + 1], cutoff)
      decreases index + 1
    {
      var x := source[index];
      ListedSnoc(source[..index], x, cutoff);
      assert source[..index + 1] == source[..index] + [x];
      assert [] + Listed(source[..index], cutoff) == Listed(source[..index], cutoff);
      index := index - 1;
      if x.content.recordedAt > cutoff { continue; }
      assert result + ([x] + Listed(source[..index + 1], cutoff)) == result + [x] + Listed(source[..index + 1], cutoff);
      result := result + [x];
    }
    assert index < 0 ==> source[..index + 1] == [];
  }

  lemma {:induction false} ListedSplits(a: seq<Observation>, b: seq<Observation>, cutoff: int)
    ensures Listed(a + b, cutoff) == Listed(b, cutoff) + Listed(a, cutoff)
  {
    hide Listed;
    if b == [] {
      assert a + b == a;
      NoneListedYet(cutoff);
    } else {
      var n := |b| - 1;
      ListedSplits(a, b[..n], cutoff);
      ListedSnoc(a + b[..n], b[n], cutoff);
      ListedSnoc(b[..n], b[n], cutoff);
      assert a + b == a + b[..n] + [b[n]] && b == b[..n] + [b[n]];
      var first := if b[n].content.recordedAt <= cutoff then [b[n]] else [];
      assert first + (Listed(b[..n], cutoff) + Listed(a, cutoff)) == first + Listed(b[..n], cutoff) + Listed(a, cutoff);
    }
  }

  lemma NoneListedYet(cutoff: int)
    ensures Listed([], cutoff) == []
  {}

  lemma {:induction false} ListedMembers(s: seq<Observation>, cutoff: int)
    ensures forall x :: x in Listed(s, cutoff) <==> x in s && x.content.recordedAt <= cutoff
    ensures |Listed(s, cutoff)| <= |s|
  {
    if s != [] {
      ListedMembers(s[..|s| - 1], cutoff);
      assert s == s[..|s| - 1] + [s[|s| - 1]];
    }
  }

  lemma NewestOfNewest(all: seq<Observation>, x: Observation)
    ensures Newest(Newest(all) + [x]) == Newest(all + [x])
  {
    if |all| > MAX_HISTORY {
      var kept, longer := all[|all| - MAX_HISTORY..] + [x], all + [x];
      assert kept[1..] == longer[|longer| - MAX_HISTORY..];
    }
  }

  lemma {:induction false} AppendAllKeepsNewest(items: seq<Observation>, xs: seq<Observation>)
    requires |items| <= MAX_HISTORY
    ensures AppendAll(items, xs) == Newest(items + xs)
  {
    hide Newest;
    if xs == [] {
      assert items + xs == items;
      ShortIsNewest(items);
    } else {
      var n := |xs| - 1;
      AppendAllKeepsNewest(items, xs[..n]);
      NewestOfNewest(items + xs[..n], xs[n]);
      assert items + xs == (items + xs[..n]) + [xs[n]];
    }
  }

  /** The history is what came last: all of it, or the last 4096 records. */
  lemma HistoryKeepsLast(items: seq<Observation>, xs: seq<Observation>)
    requires |items| <= 4096
    ensures var kept, all := AppendAll(items, xs), items + xs;
      |kept| == (if |all| < 4096 then |all| else 4096) && kept == all[|all| - |kept|..]
  {
    AppendAllKeepsNewest(items, xs);
  }

  lemma ShortIsNewest(items: seq<Observation>)
    requires |items| <= MAX_HISTORY
    ensures Newest(items) == items
  {}

  lemma NoneListedIff(s: seq<Observation>, cutoff: int)
    ensures Listed(s, cutoff) == [] <==> forall i :: 0 <= i < |s| ==> s[i].content.recordedAt > cutoff
  {
    ListedMembers(s, cutoff);
    if Listed(s, cutoff) != [] { assert Listed(s, cutoff)[0] in Listed(s, cutoff); }
    if i :| 0 <= i < |s| && s[i].content.recordedAt <= cutoff { assert s[i] in Listed(s, cutoff); }
  }

  /** How many of the oldest records the bounded history has lost. */
  function Evicted(items: seq<Observation>, xs: seq<Observation>): nat {
    if |items| + |xs| > MAX_HISTORY then |items| + |xs| - MAX_HISTORY else 0
  }

  /** The list a retry reads is the list the first attempt read, whatever was
      appended after the cutoff, if and only if the bounded history has evicted
      none of the records up to the cutoff. */
  lemma ReplayStableIff(items: seq<Observation>, xs: seq<Observation>, cutoff: int)
    requires |items| <= MAX_HISTORY
    requires forall i :: 0 <= i < |xs| ==> xs[i].content.recordedAt > cutoff
    ensures Listed(AppendAll(items, xs), cutoff) == Listed(items, cutoff)
      <==> forall i :: 0 <= i < |items| && i < Evicted(items, xs) ==> items[i].content.recordedAt > cutoff
  {
    hide Listed, AppendAll;
    var all, n := items + xs, Evicted(items, xs);
    AppendAllKeepsNewest(items, xs);
    assert all[..n] + all[n..] == all && AppendAll(items, xs) == all[n..];
    ListedSplits(items, xs, cutoff);
    ListedSplits(all[..n], all[n..], cutoff);
    NoneListedIff(xs, cutoff);
    NoneListedIff(all[..n], cutoff);
    SamePrefixIff(Listed(all[n..], cutoff), Listed(all[..n], cutoff), Listed(items, cutoff));
    EvictedAreOld(items, xs, cutoff, n);
  }

  lemma SamePrefixIff(a: seq<Observation>, b: seq<Observation>, whole: seq<Observation>)
    requires a + b == whole
    ensures a == whole <==> b == []
  {
    assert |a| + |b| == |whole|;
  }

  lemma EvictedAreOld(items: seq<Observation>, xs: seq<Observation>, cutoff: int, n: nat)
    requires n <= |items + xs|
    requires forall i :: 0 <= i < |xs| ==> xs[i].content.recordedAt > cutoff
    ensures (forall i :: 0 <= i < n ==> (items + xs)[..n][i].content.recordedAt > cutoff)
      <==> forall i :: 0 <= i < |items| && i < n ==> items[i].content.recordedAt > cutoff
  {
    var gone := (items + xs)[..n];
    forall i | 0 <= i < n ensures gone[i] == if i < |items| then items[i] else xs[i - |items|] {}
    if forall i :: 0 <= i < n ==> gone[i].content.recordedAt > cutoff {
      forall i | 0 <= i < |items| && i < n ensures items[i].content.recordedAt > cutoff { assert gone[i] == items[i]; }
    }
  }

  // Composing

  /** Identifiers, times, digests and authority of one record, whose patterns are
      not part of this model. */
  datatype Shape = Shape(wellFormed: Observation -> bool)

  predicate InScope(run: Run, x: Observation) {
    x.content.scope == run.scope && x.content.targetId == run.targetId
  }

  predicate Bound(run: Run, x: Observation) {
    x.content.outcomeId == run.outcomeId && x.content.indicatorId == run.indicatorId && x.content.sourceKind == run.sourceKind
  }

  predicate Relevant(run: Run, window: Window, x: Observation) {
    window.start <= x.content.observedAt <= window.end
    && x.content.observedAt <= run.finishedAt && x.content.recordedAt <= run.finishedAt
  }

  predicate IsCurrent(run: Run, x: Observation) {
    x.id == run.observationId && x.digest == run.observationDigest
  }

  function ToComposed(x: Observation): Composed {
    var c := x.content;
    Composed(x.id, c.scope, c.indicatorId, c.value, c.observedAt, c.recordedAt, c.sourceDigest)
  }

  const BY_TIME: (Composed, Composed) -> bool :=
    (a: Composed, b: Composed) => if a.observedAt != b.observedAt then a.observedAt < b.observedAt else LexLe(a.id, b.id)

  function RelevantOf(run: Run, window: Window, records: seq<Observation>): seq<Composed> {
    if records == [] then []
    else
      var last := records[|records| - 1];
      RelevantOf(run, window, records[..|records| - 1]) + if Relevant(run, window, last) then [ToComposed(last)] else []
  }

  predicate Acceptable(shape: Shape, run: Run, x: Observation) {
    InScope(run, x) && shape.wellFormed(x) && Bound(run, x) && x.digest == x.content
  }

  /** A history the composer accepts: every record intact and of this monitor, no
      ID and no digest twice. */
  predicate Intact(shape: Shape, run: Run, records: seq<Observation>) {
    && (forall i :: 0 <= i < |records| ==> Acceptable(shape, run, records[i]))
    && (forall i, j :: 0 <= i < j < |records| ==> records[i].id != records[j].id && records[i].digest != records[j].digest)
  }

  predicate HasCurrent(run: Run, records: seq<Observation>) {
    exists i :: 0 <= i < |records| && IsCurrent(run, records[i])
  }

  function Composition(run: Run, window: Window, records: seq<Observation>): seq<Composed> {
    Sort(RelevantOf(run, window, records), BY_TIME)
  }

  function Ids(records: seq<Observation>): set<string> {
    set x | x in records :: x.id
  }

  function Digests(records: seq<Observation>): set<Content> {
    set x | x in records :: x.digest
  }

  method ComposeObservations(shape: Shape, run: Run, window: Window, records: seq<Observation>)
    returns (result: Result<seq<Composed>, Fault>, found: bool)
    ensures result.Ok? <==> Intact(shape, run, records)
    ensures result.Ok? ==> result.value == Composition(run, window, records) && found == HasCurrent(run, records)
    ensures result.Err? ==> !found
  {
    hide Intact, HasCurrent, Ids, Digests, IsCurrent, Relevant;
    var kept: seq<Composed> := [];
    var seenIds: set<string>, seenDigests: set<Content> := {}, {};
    found := false;
    NothingSeen(shape, run);
    for i := 0 to |records|
      invariant kept == RelevantOf(run, window, records[..i])
      invariant Intact(shape, run, records[..i])
      invariant seenIds == Ids(records[..i]) && seenDigests == Digests(records[..i])
      invariant found == HasCurrent(run, records[..i])
    {
      var x := records[i];
      ghost var before := records[..i];
      assert records[..i + 1] == before + [x];
      SeenSets(before, x);
      SeenCurrent(run, before, x);
      SeenIntact(shape, run, before, x);
      OneBadSpoils(shape, run, records, i + 1);
      if !InScope(run, x) { return Err(ScopeViolation), false; }
      if !shape.wellFormed(x) { return Err(InvalidInput), false; }
      if !Bound(run, x) { return Err(ScopeViolation), false; }
      if x.digest != x.content { return Err(InvalidInput), false; }
      if x.id in seenIds { return Err(InvalidInput), false; }
      if x.digest in seenDigests { return Err(InvalidInput), false; }
      seenIds := seenIds + {x.id};
      seenDigests := seenDigests + {x.digest};
      if IsCurrent(run, x) { found := true; }
      if !Relevant(run, window, x) { continue; }
      kept := kept + [ToComposed(x)];
    }
    assert records[..|records|] == records;
    return Ok(Sort(kept, BY_TIME)), found;
  }

  lemma NothingSeen(shape: Shape, run: Run)
    ensures Intact(shape, run, []) && Ids([]) == {} && Digests([]) == {} && !HasCurrent(run, [])
  {}

  lemma SeenSets(records: seq<Observation>, x: Observation)
    ensures Ids(records + [x]) == Ids(records) + {x.id} && Digests(records + [x]) == Digests(records) + {x.digest}
  {
    var all := records + [x];
    forall y ensures y in all <==> y in records || y == x {}
    assert Ids(all) == Ids(records) + {x.id};
    assert Digests(all) == Digests(records) + {x.digest};
  }

  lemma SeenCurrent(run: Run, records: seq<Observation>, x: Observation)
    ensures HasCurrent(run, records + [x]) <==> HasCurrent(run, records) || IsCurrent(run, x)
  {
    hide IsCurrent;
    var all := records + [x];
    assert all[|records|] == x;
    if i :| 0 <= i < |records| && IsCurrent(run, records[i]) { assert IsCurrent(run, all[i]); }
  }

  lemma SeenIntact(shape: Shape, run: Run, records: seq<Observation>, x: Observation)
    requires Intact(shape, run, records)
    ensures Intact(shape, run, records + [x]) <==>
      Acceptable(shape, run, x) && x.id !in Ids(records) && x.digest !in Digests(records)
  {
    hide Acceptable;
    var all := records + [x];
    assert all[|records|] == x;
    forall i | 0 <= i < |records| ensures all[i] == records[i] && records[i].id in Ids(records) && records[i].digest in Digests(records) {
      assert records[i] in records;
    }
  }

  lemma OneBadSpoils(shape: Shape, run: Run, records: seq<Observation>, n: nat)
    requires n <= |records|
    ensures Intact(shape, run, records) ==> Intact(shape, run, records[..n])
  {
    hide Acceptable;
  }

  lemma TimeIsOrder()
    ensures TotalPreorder(BY_TIME)
  {
    forall a: Composed, b: Composed ensures BY_TIME(a, b) || BY_TIME(b, a) { LexTotal(a.id, b.id); }
    forall a: Composed, b: Composed, c: Composed | BY_TIME(a, b) && BY_TIME(b, c) ensures BY_TIME(a, c) {
      if a.observedAt == b.observedAt == c.observedAt { LexTransitive(a.id, b.id, c.id); }
    }
  }

  lemma {:induction false} RelevantMembers(run: Run, window: Window, records: seq<Observation>, c: Composed)
    ensures c in RelevantOf(run, window, records) <==> exists x :: x in records && Relevant(run, window, x) && ToComposed(x) == c
  {
    hide Relevant, ToComposed;
    if records != [] {
      var n := |records| - 1;
      RelevantMembers(run, window, records[..n], c);
      assert records == records[..n] + [records[n]];
    }
  }

  predicate DistinctIds(s: seq<Composed>) {
    forall i, j :: 0 <= i < j < |s| ==> s[i].id != s[j].id
  }

  lemma NoIds()
    ensures DistinctIds([])
  {}

  lemma DistinctIdsSnoc(s: seq<Composed>, c: Composed)
    requires DistinctIds(s) && forall d :: d in s ==> d.id != c.id
    ensures DistinctIds(s + [c])
  {}

  lemma {:induction false} RelevantDistinct(shape: Shape, run: Run, window: Window, records: seq<Observation>)
    requires Intact(shape, run, records)
    ensures DistinctIds(RelevantOf(run, window, records))
  {
    hide Relevant, Intact, DistinctIds;
    if records == [] {
      NoIds();
    } else {
      var n := |records| - 1;
      var kept := RelevantOf(run, window, records[..n]);
      OneBadSpoils(shape, run, records, n);
      assert records == records[..n] + [records[n]];
      SeenIntact(shape, run, records[..n], records[n]);
      RelevantDistinct(shape, run, window, records[..n]);
      forall d | d in kept ensures d.id != records[n].id {
        RelevantMembers(run, window, records[..n], d);
        var x :| x in records[..n] && Relevant(run, window, x) && ToComposed(x) == d;
        assert x.id in Ids(records[..n]);
      }
      DistinctIdsSnoc(kept, ToComposed(records[n]));
      assert kept + [] == kept;
    }
  }

  lemma TimeTies(a: Composed, b: Composed)
    requires Ties(a, b, BY_TIME)
    ensures a.id == b.id
  {
    assert BY_TIME(a, b) && BY_TIME(b, a);
    LexAntisymmetric(a.id, b.id);
  }

  /** The composed list: the relevant records, each once, by time and then ID. */
  lemma CompositionListsRelevant(shape: Shape, run: Run, window: Window, records: seq<Observation>)
    requires Intact(shape, run, records)
    ensures StrictlySorted(Composition(run, window, records), BY_TIME)
    ensures forall c :: c in Composition(run, window, records) <==>
      (exists x :: x in records && Relevant(run, window, x) && ToComposed(x) == c)
  {
    hide Relevant, Intact, ToComposed;
    var kept := RelevantOf(run, window, records);
    RelevantDistinct(shape, run, window, records);
    TimeIsOrder();
    forall i, j | 0 <= i < j < |kept| ensures !Ties(kept[i], kept[j], BY_TIME) {
      assert kept[i].id != kept[j].id;
      if Ties(kept[i], kept[j], BY_TIME) { TimeTies(kept[i], kept[j]); }
    }
    SortIsStrict(kept, BY_TIME);
    SortPermutes(kept, BY_TIME);
    forall c ensures c in kept <==> exists x :: x in records && Relevant(run, window, x) && ToComposed(x) == c {
      RelevantMembers(run, window, records, c);
    }
  }

  /** Said over the records: a history is accepted if and only if each record is well
      formed, belongs to the run's monitor and outcome, has the digest of its content,
      and none shares its ID or digest with another; and the run's own observation is
      there if and only if a record has its ID and digest. */
  lemma AcceptedIff(shape: Shape, run: Run, records: seq<Observation>)
    ensures Intact(shape, run, records) <==>
      && (forall x :: x in records ==>
            && shape.wellFormed(x) && x.content.scope.owner == run.scope.owner && x.content.scope.workspace == run.scope.workspace
            && x.content.targetId == run.targetId && x.content.outcomeId == run.outcomeId
            && x.content.indicatorId == run.indicatorId && x.content.sourceKind == run.sourceKind && x.digest == x.content)
      && (forall i, k :: 0 <= i < k < |records| ==> records[i].id != records[k].id && records[i].content != records[k].content)
    ensures HasCurrent(run, records) <==> exists x :: x in records && x.id == run.observationId && x.digest == run.observationDigest
  {
    if Intact(shape, run, records) {
      forall x | x in records ensures Acceptable(shape, run, x) {
        var i :| 0 <= i < |records| && records[i] == x;
        assert Acceptable(shape, run, records[i]);
      }
    }
    if HasCurrent(run, records) {
      var i :| 0 <= i < |records| && IsCurrent(run, records[i]);
      assert records[i] in records;
    }
    if x :| x in records && x.id == run.observationId && x.digest == run.observationDigest {
      var i :| 0 <= i < |records| && records[i] == x;
      assert IsCurrent(run, records[i]);
    }
  }

  /** The record of an observation made within the window and known by the finish. */
  predicate Shows(c: Composed, x: Observation, run: Run, window: Window) {
    && window.start <= x.content.observedAt && x.content.observedAt <= window.end
    && x.content.observedAt <= run.finishedAt && x.content.recordedAt <= run.finishedAt
    && c.id == x.id && c.scope == x.content.scope && c.indicatorId == x.content.indicatorId && c.value == x.content.value
    && c.observedAt == x.content.observedAt && c.recordedAt == x.content.recordedAt && c.sourceDigest == x.content.sourceDigest
  }

  /** Said over the records: the composed list shows exactly the observations made
      within the window and known by the finish, by time and then ID. */
  lemma CompositionSays(shape: Shape, run: Run, window: Window, records: seq<Observation>)
    ensures forall c :: c in Composition(run, window, records) <==> exists x :: x in records && Shows(c, x, run, window)
    ensures var list := Composition(run, window, records);
      Intact(shape, run, records) ==> forall i, k :: 0 <= i < k < |list| ==>
        list[i].observedAt < list[k].observedAt || (list[i].observedAt == list[k].observedAt && list[i].id != list[k].id && LexLe(list[i].id, list[k].id))
  {
    hide Intact, Shows, Sort, RelevantOf;
    var kept := RelevantOf(run, window, records);
    SortPermutes(kept, BY_TIME);
    forall c ensures c in kept <==> exists x :: x in records && Shows(c, x, run, window) {
      RelevantMembers(run, window, records, c);
      forall x ensures Shows(c, x, run, window) <==> Relevant(run, window, x) && ToComposed(x) == c { ShowsIff(c, x, run, window); }
    }
    if Intact(shape, run, records) { CompositionRuns(shape, run, window, records); }
  }

  lemma ShowsIff(c: Composed, x: Observation, run: Run, window: Window)
    ensures Shows(c, x, run, window) <==> Relevant(run, window, x) && ToComposed(x) == c
  {}

  lemma CompositionRuns(shape: Shape, run: Run, window: Window, records: seq<Observation>)
    requires Intact(shape, run, records)
    ensures var list := Composition(run, window, records);
      forall i, k :: 0 <= i < k < |list| ==>
        list[i].observedAt < list[k].observedAt || (list[i].observedAt == list[k].observedAt && list[i].id != list[k].id && LexLe(list[i].id, list[k].id))
  {
    hide Intact, Composition;
    CompositionListsRelevant(shape, run, window, records);
    var list := Composition(run, window, records);
    forall i, k | 0 <= i < k < |list|
      ensures list[i].observedAt < list[k].observedAt || (list[i].observedAt == list[k].observedAt && list[i].id != list[k].id && LexLe(list[i].id, list[k].id))
    {
      assert BY_TIME(list[i], list[k]) && !BY_TIME(list[k], list[i]);
    }
  }

  ghost predicate SameUntil(finishedAt: int, a: seq<Observation>, b: seq<Observation>) {
    forall x: Observation :: x.content.recordedAt <= finishedAt ==> (x in a <==> x in b)
  }

  /** The composed list depends only on the set of records that were there when the
      run finished: neither their order nor anything recorded later matters. */
  lemma CompositionDependsOnFinishedHistory(shape: Shape, run: Run, window: Window, a: seq<Observation>, b: seq<Observation>)
    requires Intact(shape, run, a) && Intact(shape, run, b) && SameUntil(run.finishedAt, a, b)
    ensures Composition(run, window, a) == Composition(run, window, b)
  {
    hide Intact, ToComposed, Composition;
    CompositionListsRelevant(shape, run, window, a);
    CompositionListsRelevant(shape, run, window, b);
    StrictOrderIsUnique(Composition(run, window, a), Composition(run, window, b), BY_TIME);
  }

  /** Reordering a history changes neither whether it is accepted nor the result. */
  lemma ReorderingIsHarmless(shape: Shape, run: Run, window: Window, a: seq<Observation>, b: seq<Observation>)
    requires multiset(a) == multiset(b) && Intact(shape, run, a)
    ensures Intact(shape, run, b) && Composition(run, window, a) == Composition(run, window, b)
    ensures HasCurrent(run, a) <==> HasCurrent(run, b)
  {
    hide Acceptable, Composition, IsCurrent;
    assert forall x :: x in a <==> x in multiset(a);
    assert forall x :: x in b <==> x in multiset(b);
    forall i | 0 <= i < |b| ensures Acceptable(shape, run, b[i]) { assert b[i] in a; }
    forall i, j | 0 <= i < j < |b| ensures b[i].id != b[j].id && b[i].digest != b[j].digest {
      assert b[i] in a && b[j] in a;
      var p :| 0 <= p < |a| && a[p] == b[i];
      var q :| 0 <= q < |a| && a[q] == b[j];
      if p == q {
        RepeatedTwice(b, i, j);
        DistinctOnce(a, b[i]);
      }
    }
    CompositionDependsOnFinishedHistory(shape, run, window, a, b);
    CurrentMembers(run, a);
    CurrentMembers(run, b);
  }

  lemma CurrentMembers(run: Run, records: seq<Observation>)
    ensures HasCurrent(run, records) <==> exists x :: x in records && IsCurrent(run, x)
  {
    hide IsCurrent;
    if i :| 0 <= i < |records| && IsCurrent(run, records[i]) { assert records[i] in records; }
    if x :| x in records && IsCurrent(run, x) {
      var i :| 0 <= i < |records| && records[i] == x;
    }
  }

  lemma IntactCons(shape: Shape, run: Run, x: Observation, rest: seq<Observation>)
    requires Acceptable(shape, run, x) && Intact(shape, run, rest)
    requires forall y :: y in rest ==> y.id != x.id && y.digest != x.digest
    ensures Intact(shape, run, [x] + rest)
  {
    hide Acceptable;
    var all := [x] + rest;
    forall i | 0 < i < |all| ensures all[i] == rest[i - 1] && all[i] in rest {}
  }

  lemma LastIsDifferent(shape: Shape, run: Run, records: seq<Observation>)
    requires records != [] && Intact(shape, run, records)
    ensures var n := |records| - 1;
      && Acceptable(shape, run, records[n])
      && forall y :: y in records[..n] ==> y.id != records[n].id && y.digest != records[n].digest
  {
    hide Acceptable;
  }

  lemma {:induction false} ListedStaysIntact(shape: Shape, run: Run, records: seq<Observation>, cutoff: int)
    requires Intact(shape, run, records)
    ensures Intact(shape, run, Listed(records, cutoff))
  {
    hide Acceptable, Intact;
    if records == [] {
      NothingSeen(shape, run);
    } else {
      var n := |records| - 1;
      OneBadSpoils(shape, run, records, n);
      LastIsDifferent(shape, run, records);
      ListedStaysIntact(shape, run, records[..n], cutoff);
      ListedMembers(records[..n], cutoff);
      var rest := Listed(records[..n], cutoff);
      IntactCons(shape, run, records[n], rest);
      assert [] + rest == rest;
    }
  }

  // When a later read composes the same list

  /** A record of the run was evicted, or one appended later belongs to it. */
  ghost predicate Disturbed(run: Run, window: Window, items: seq<Observation>, xs: seq<Observation>) {
    || (exists i :: 0 <= i < |items| && i < Evicted(items, xs) && Relevant(run, window, items[i]))
    || (exists k :: 0 <= k < |xs| && Evicted(items, xs) <= |items| + k && Relevant(run, window, xs[k]))
  }

  lemma {:induction false} RelevantSplits(run: Run, window: Window, a: seq<Observation>, b: seq<Observation>)
    ensures RelevantOf(run, window, a + b) == RelevantOf(run, window, a) + RelevantOf(run, window, b)
  {
    hide Relevant, ToComposed;
    if b == [] {
      assert a + b == a;
    } else {
      var n := |b| - 1;
      RelevantSplits(run, window, a, b[..n]);
      assert (a + b)[..|a + b| - 1] == a + b[..n];
      var last := if Relevant(run, window, b[n]) then [ToComposed(b[n])] else [];
      assert RelevantOf(run, window, a) + (RelevantOf(run, window, b[..n]) + last) == RelevantOf(run, window, a) + RelevantOf(run, window, b[..n]) + last;
    }
  }

  lemma {:induction false} NoneRelevant(run: Run, window: Window, records: seq<Observation>)
    requires forall i :: 0 <= i < |records| ==> !Relevant(run, window, records[i])
    ensures RelevantOf(run, window, Listed(records, run.finishedAt)) == []
  {
    hide Relevant, Listed;
    var list := Listed(records, run.finishedAt);
    ListedMembers(records, run.finishedAt);
    if RelevantOf(run, window, list) != [] {
      var c := RelevantOf(run, window, list)[0];
      RelevantMembers(run, window, list, c);
      assert false;
    }
  }

  /** Undisturbed, a later read finds the same relevant records in the same order. */
  lemma UndisturbedComposes(run: Run, window: Window, items: seq<Observation>, xs: seq<Observation>)
    requires |items| <= MAX_HISTORY && !Disturbed(run, window, items, xs)
    ensures Composition(run, window, Listed(AppendAll(items, xs), run.finishedAt)) == Composition(run, window, Listed(items, run.finishedAt))
  {
    hide Relevant, Listed, RelevantOf, AppendAll;
    var cutoff, n, all := run.finishedAt, Evicted(items, xs), items + xs;
    AppendAllKeepsNewest(items, xs);
    if n <= |items| {
      assert AppendAll(items, xs) == items[n..] + xs;
      assert items == items[..n] + items[n..];
      ListedSplits(items[n..], xs, cutoff);
      ListedSplits(items[..n], items[n..], cutoff);
      RelevantSplits(run, window, Listed(xs, cutoff), Listed(items[n..], cutoff));
      RelevantSplits(run, window, Listed(items[n..], cutoff), Listed(items[..n], cutoff));
      NoneRelevant(run, window, xs);
      NoneRelevant(run, window, items[..n]);
      var kept := RelevantOf(run, window, Listed(items[n..], cutoff));
      assert [] + kept == kept + [] == kept;
    } else {
      var rest := xs[n - |items|..];
      assert AppendAll(items, xs) == rest;
      forall i | 0 <= i < |rest| ensures !Relevant(run, window, rest[i]) { assert rest[i] == xs[n - |items| + i]; }
      NoneRelevant(run, window, rest);
      NoneRelevant(run, window, items);
    }
  }

  lemma CrossIds(shape: Shape, run: Run, a: seq<Observation>, b: seq<Observation>, x: Observation, y: Observation)
    requires Intact(shape, run, a + b) && x in a && y in b
    ensures x.id != y.id
  {
    hide Acceptable;
    var i :| 0 <= i < |a| && a[i] == x;
    var k :| 0 <= k < |b| && b[k] == y;
    assert (a + b)[i] == x && (a + b)[|a| + k] == y;
  }

  lemma IntactParts(shape: Shape, run: Run, a: seq<Observation>, b: seq<Observation>)
    requires Intact(shape, run, a + b)
    ensures Intact(shape, run, a) && Intact(shape, run, b)
  {
    hide Acceptable;
    forall i | 0 <= i < |a| ensures (a + b)[i] == a[i] {}
    forall k | 0 <= k < |b| ensures (a + b)[|a| + k] == b[k] {}
  }

  /** A relevant record listed on one side only shows in that side's composition only. */
  lemma OneSidedRecord(shape: Shape, run: Run, window: Window, a: seq<Observation>, b: seq<Observation>, x: Observation)
    requires Intact(shape, run, a) && Intact(shape, run, b) && x in a && Relevant(run, window, x)
    requires forall y :: y in b ==> y.id != x.id
    ensures Composition(run, window, a) != Composition(run, window, b)
  {
    hide Intact, Relevant, Composition;
    CompositionListsRelevant(shape, run, window, a);
    CompositionListsRelevant(shape, run, window, b);
    assert ToComposed(x) in Composition(run, window, a);
    forall y | y in b ensures ToComposed(y) != ToComposed(x) {}
    assert ToComposed(x) !in Composition(run, window, b);
  }

  /** The two reads as parts of everything ever recorded. */
  lemma TwoReads(shape: Shape, run: Run, items: seq<Observation>, xs: seq<Observation>)
    requires |items| <= MAX_HISTORY && Intact(shape, run, Listed(items + xs, run.finishedAt))
    ensures var cutoff, n, all := run.finishedAt, Evicted(items, xs), items + xs;
      && AppendAll(items, xs) == all[n..]
      && Intact(shape, run, Listed(all[n..], cutoff) + Listed(all[..n], cutoff))
      && Intact(shape, run, Listed(xs, cutoff) + Listed(items, cutoff))
      && Intact(shape, run, Listed(all[n..], cutoff)) && Intact(shape, run, Listed(items, cutoff))
  {
    hide Intact, Listed, AppendAll;
    var cutoff, n, all := run.finishedAt, Evicted(items, xs), items + xs;
    AppendAllKeepsNewest(items, xs);
    assert all == all[..n] + all[n..];
    ListedSplits(all[..n], all[n..], cutoff);
    ListedSplits(items, xs, cutoff);
    IntactParts(shape, run, Listed(all[n..], cutoff), Listed(all[..n], cutoff));
    IntactParts(shape, run, Listed(xs, cutoff), Listed(items, cutoff));
  }

  lemma EvictionDisturbs(shape: Shape, run: Run, window: Window, items: seq<Observation>, xs: seq<Observation>, i: nat)
    requires |items| <= MAX_HISTORY && Intact(shape, run, Listed(items + xs, run.finishedAt))
    requires i < |items| && i < Evicted(items, xs) && Relevant(run, window, items[i])
    ensures Composition(run, window, Listed(AppendAll(items, xs), run.finishedAt)) != Composition(run, window, Listed(items, run.finishedAt))
  {
    hide Intact, Relevant, Listed, Composition, AppendAll;
    var cutoff, n, all := run.finishedAt, Evicted(items, xs), items + xs;
    TwoReads(shape, run, items, xs);
    var gone, kept, x := all[..n], all[n..], items[i];
    assert gone[i] == x && x in items && x in gone;
    RelevantIsRecorded(run, window, x);
    ListedMembers(items, cutoff);
    ListedMembers(gone, cutoff);
    forall y | y in Listed(kept, cutoff) ensures y.id != x.id {
      CrossIds(shape, run, Listed(kept, cutoff), Listed(gone, cutoff), y, x);
    }
    OneSidedRecord(shape, run, window, Listed(items, cutoff), Listed(kept, cutoff), x);
  }

  lemma AppendDisturbs(shape: Shape, run: Run, window: Window, items: seq<Observation>, xs: seq<Observation>, k: nat)
    requires |items| <= MAX_HISTORY && Intact(shape, run, Listed(items + xs, run.finishedAt))
    requires k < |xs| && Evicted(items, xs) <= |items| + k && Relevant(run, window, xs[k])
    ensures Composition(run, window, Listed(AppendAll(items, xs), run.finishedAt)) != Composition(run, window, Listed(items, run.finishedAt))
  {
    hide Intact, Relevant, Listed, Composition, AppendAll;
    var cutoff, n, all := run.finishedAt, Evicted(items, xs), items + xs;
    TwoReads(shape, run, items, xs);
    var kept, x := all[n..], xs[k];
    assert kept[|items| + k - n] == x && x in kept && x in xs;
    RelevantIsRecorded(run, window, x);
    ListedMembers(kept, cutoff);
    ListedMembers(xs, cutoff);
    forall y | y in Listed(items, cutoff) ensures y.id != x.id {
      CrossIds(shape, run, Listed(xs, cutoff), Listed(items, cutoff), x, y);
    }
    OneSidedRecord(shape, run, window, Listed(kept, cutoff), Listed(items, cutoff), x);
  }

  /** A later read composes the same list if and only if it is undisturbed: no
      relevant record was evicted and none that is still there was appended.
      Eviction of other records, before or after the cutoff, changes nothing. */
  lemma CompositionStableIff(shape: Shape, run: Run, window: Window, items: seq<Observation>, xs: seq<Observation>)
    requires |items| <= MAX_HISTORY && Intact(shape, run, Listed(items + xs, run.finishedAt))
    ensures Composition(run, window, Listed(AppendAll(items, xs), run.finishedAt)) == Composition(run, window, Listed(items, run.finishedAt))
      <==> !Disturbed(run, window, items, xs)
  {
    hide Intact, Relevant, Listed, Composition, AppendAll, Evicted;
    if !Disturbed(run, window, items, xs) {
      UndisturbedComposes(run, window, items, xs);
    } else if i :| 0 <= i < |items| && i < Evicted(items, xs) && Relevant(run, window, items[i]) {
      EvictionDisturbs(shape, run, window, items, xs, i);
    } else {
      var k :| 0 <= k < |xs| && Evicted(items, xs) <= |items| + k && Relevant(run, window, xs[k]);
      AppendDisturbs(shape, run, window, items, xs, k);
    }
  }

  lemma RelevantIsRecorded(run: Run, window: Window, x: Observation)
    requires Relevant(run, window, x)
    ensures x.content.recordedAt <= run.finishedAt
  {}
}
