/** Scoring and ranking what a scan offers, and keeping only the newest scans. */
module Ranking {
  import opened Wrappers
  import opened Ambient
  import opened Sorting
  import opened Text

  datatype Need = Need(currentLevel: int, targetLevel: int, priorityWeight: int, enabled: bool)

  function Clamp(x: int, low: int, high: int): int {
    if x < low then low else if x > high then high else x
  }

  /** A hundredth rounded half away from zero. */
  function RoundHundredths(x: int): int {
    if x >= 0 then (x + 50) / 100 else -((50 - x) / 100)
  }

  /** The weighted sum in hundredths, with the weights taken exactly. */
  function Weighted(d: Details, confidence: int, need: Need): int {
    25 * d.urgency + 24 * d.impact + 18 * confidence + 12 * (100 - Clamp(d.effort, 0, 100))
    + 12 * Clamp(need.targetLevel - need.currentLevel, 0, 100) + 9 * need.priorityWeight - 12 * d.risk
    - if d.requiresApproval then 300 else 0
  }

  function OpportunityScore(d: Details, confidence: int, need: Need): int {
    Clamp(RoundHundredths(Weighted(d, confidence, need)), 0, 100)
  }

  /** More urgent, more valuable and surer never ranks lower; neither does less
      effort, less risk or less approval. */
  lemma ScoreIsMonotone(a: Details, ca: int, b: Details, cb: int, need: Need)
    requires a.urgency <= b.urgency && a.impact <= b.impact && ca <= cb
    requires b.effort <= a.effort && b.risk <= a.risk && (b.requiresApproval ==> a.requiresApproval)
    ensures 0 <= OpportunityScore(a, ca, need) <= OpportunityScore(b, cb, need) <= 100
  {
    RoundIsMonotone(Weighted(a, ca, need), Weighted(b, cb, need));
  }

  lemma RoundIsMonotone(x: int, y: int)
    requires x <= y
    ensures RoundHundredths(x) <= RoundHundredths(y)
  {}

  predicate Percent(x: int) {
    0 <= x <= 100
  }

  /** On percentages the upper clamp is never needed: the positive weights add up to one. */
  lemma WeightsAddUp(d: Details, confidence: int, need: Need)
    requires Percent(d.urgency) && Percent(d.impact) && Percent(confidence) && Percent(d.risk) && Percent(need.priorityWeight)
    ensures RoundHundredths(Weighted(d, confidence, need)) <= 100
    ensures OpportunityScore(d, confidence, need) == 0 <==> Weighted(d, confidence, need) < 50
  {}

  function Less(x: int, y: int): int {
    if x < y then x else y
  }

  /** What each input is worth: where the score is above 0, it grows, up to 100, by one
      point for 4 of urgency, 6 for 25 of impact, 9 for 50 of confidence, 3 for 25
      less effort, 25 less risk or 25 more of the gap, 9 for the whole weight of a
      need, and 3 when no approval is required. */
  lemma WorthInPoints(d: Details, confidence: int, need: Need, k: nat)
    requires OpportunityScore(d, confidence, need) > 0
    ensures var s := OpportunityScore(d, confidence, need);
      && OpportunityScore(d.(urgency := d.urgency + 4 * k), confidence, need) == Less(s + k, 100)
      && OpportunityScore(d.(impact := d.impact + 25 * k), confidence, need) == Less(s + 6 * k, 100)
      && OpportunityScore(d, confidence + 50 * k, need) == Less(s + 9 * k, 100)
      && OpportunityScore(d.(risk := d.risk - 25 * k), confidence, need) == Less(s + 3 * k, 100)
      && OpportunityScore(d, confidence, need.(priorityWeight := need.priorityWeight + 100 * k)) == Less(s + 9 * k, 100)
      && (d.requiresApproval ==> OpportunityScore(d.(requiresApproval := false), confidence, need) == Less(s + 3, 100))
      && (25 * k <= d.effort <= 100 ==> OpportunityScore(d.(effort := d.effort - 25 * k), confidence, need) == Less(s + 3 * k, 100))
      && (0 <= need.targetLevel - need.currentLevel <= 100 - 25 * k ==>
            OpportunityScore(d, confidence, need.(currentLevel := need.currentLevel - 25 * k)) == Less(s + 3 * k, 100))
  {
    hide OpportunityScore;
    Shifted(d, confidence, need, d.(urgency := d.urgency + 4 * k), confidence, need, k);
    Shifted(d, confidence, need, d.(impact := d.impact + 25 * k), confidence, need, 6 * k);
    Shifted(d, confidence, need, d, confidence + 50 * k, need, 9 * k);
    Shifted(d, confidence, need, d.(risk := d.risk - 25 * k), confidence, need, 3 * k);
    Shifted(d, confidence, need, d, confidence, need.(priorityWeight := need.priorityWeight + 100 * k), 9 * k);
    Shifted(d, confidence, need, d.(requiresApproval := false), confidence, need, 3);
    Shifted(d, confidence, need, d.(effort := d.effort - 25 * k), confidence, need, 3 * k);
    Shifted(d, confidence, need, d, confidence, need.(currentLevel := need.currentLevel - 25 * k), 3 * k);
  }

  lemma Shifted(d: Details, confidence: int, need: Need, e: Details, surer: int, other: Need, n: nat)
    ensures OpportunityScore(d, confidence, need) > 0 && Weighted(e, surer, other) == Weighted(d, confidence, need) + 100 * n ==>
      OpportunityScore(e, surer, other) == Less(OpportunityScore(d, confidence, need) + n, 100)
  {
    hide Weighted;
    if RoundHundredths(Weighted(d, confidence, need)) > 0 { RoundShifts(Weighted(d, confidence, need), n); }
  }

  lemma RoundShifts(w: int, n: nat)
    requires RoundHundredths(w) > 0
    ensures RoundHundredths(w + 100 * n) == RoundHundredths(w) + n
  {}

  // Ranking

  function Fingerprint(parts: seq<string>): string {
    Lower(Join(parts, "\0"))
  }

  /** The owner-scoped scan puts its owner into record and fingerprint. */
  function Prepared(candidate: Opportunity, need: Need, owner: Option<string>): Opportunity {
    var c := if owner.Some? then candidate.(owner := owner.value) else candidate;
    c.(priority := OpportunityScore(c.details, c.confidence, need),
       fingerprint := Fingerprint((if owner.Some? then [owner.value] else []) + [c.sourceType, c.sourceId, c.needKey]))
  }

  type Needs = map<string, Need>

  predicate Wanted(candidate: Opportunity, needs: Needs) {
    candidate.needKey in needs && needs[candidate.needKey].enabled
  }

  function Ready(candidate: Opportunity, needs: Needs, owner: Option<string>): Opportunity
    requires Wanted(candidate, needs)
  {
    Prepared(candidate, needs[candidate.needKey], owner)
  }

  predicate Taken(fingerprint: string, kept: seq<Opportunity>) {
    exists i :: 0 <= i < |kept| && kept[i].fingerprint == fingerprint
  }

  function Admitted(offered: seq<Opportunity>, needs: Needs, owner: Option<string>): seq<Opportunity> {
    if offered == [] then []
    else
      var kept, last := Admitted(offered[..|offered| - 1], needs, owner), offered[|offered| - 1];
      if !Wanted(last, needs) || Taken(Ready(last, needs, owner).fingerprint, kept) then kept
      else kept + [Ready(last, needs, owner)]
  }

  const BY_PRIORITY: (Opportunity, Opportunity) -> bool := (a: Opportunity, b: Opportunity) => a.priority >= b.priority

  function Ranked(offered: seq<Opportunity>, needs: Needs, owner: Option<string>): seq<Opportunity> {
    Sort(Admitted(offered, needs, owner), BY_PRIORITY)
  }

  method BuildCandidates(offered: seq<Opportunity>, needs: Needs, owner: Option<string>, limit: nat) returns (kept: seq<Opportunity>)
    ensures var ranked := Ranked(offered, needs, owner);
      kept == if |ranked| > limit then ranked[..limit] else ranked
  {
    hide Prepared, Taken;
    var candidates: seq<Opportunity> := [];
    var seen: set<string> := {};
    NothingTaken();
    for i := 0 to |offered|
      invariant candidates == Admitted(offered[..i], needs, owner)
      invariant forall f :: f in seen <==> Taken(f, candidates)
    {
      assert offered[..i + 1][..i] == offered[..i];
      if !Wanted(offered[i], needs) { continue; }
      var candidate := Ready(offered[i], needs, owner);
      if candidate.fingerprint in seen { continue; }
      TakenMore(candidates, candidate);
      seen := seen + {candidate.fingerprint};
      candidates := candidates + [candidate];
    }
    assert offered[..|offered|] == offered;
    kept := Sort(candidates, BY_PRIORITY);
    if |kept| > limit { kept := kept[..limit]; }
  }

  lemma NothingTaken()
    ensures forall f :: !Taken(f, [])
  {}

  lemma TakenMore(kept: seq<Opportunity>, c: Opportunity)
    ensures forall f :: Taken(f, kept + [c]) <==> Taken(f, kept) || f == c.fingerprint
  {
    var all := kept + [c];
    assert all[|kept|] == c;
    forall f | Taken(f, kept) ensures Taken(f, all) {
      var i :| 0 <= i < |kept| && kept[i].fingerprint == f;
      assert all[i].fingerprint == f;
    }
  }

  /** Without NUL characters a fingerprint is its source and need, up to case. */
  lemma FingerprintIdentifies(a: seq<string>, b: seq<string>)
    requires |a| == |b| > 0
    requires forall s :: s in a || s in b ==> '\0' !in s
    ensures Fingerprint(a) == Fingerprint(b) <==> forall i :: 0 <= i < |a| ==> Lower(a[i]) == Lower(b[i])
  {
    LowerJoin(a);
    LowerJoin(b);
    var x, y := Lowered(a), Lowered(b);
    if Fingerprint(a) == Fingerprint(b) {
      JoinedApart(x, y);
      forall i | 0 <= i < |a| ensures Lower(a[i]) == Lower(b[i]) { assert x[i] == y[i]; }
    }
    if forall i :: 0 <= i < |a| ==> Lower(a[i]) == Lower(b[i]) { assert x == y; }
  }

  function Lowered(parts: seq<string>): (r: seq<string>)
    ensures |r| == |parts| && forall i :: 0 <= i < |parts| ==> r[i] == Lower(parts[i])
  {
    seq(|parts|, i requires 0 <= i < |parts| => Lower(parts[i]))
  }

  lemma {:induction false} LowerJoin(parts: seq<string>)
    requires forall s :: s in parts ==> '\0' !in s
    ensures Lower(Join(parts, "\0")) == Join(Lowered(parts), "\0")
    ensures forall s :: s in Lowered(parts) ==> '\0' !in s
  {
    forall s | s in Lowered(parts) ensures '\0' !in s {
      var i :| 0 <= i < |parts| && Lowered(parts)[i] == s;
      assert parts[i] in parts;
      forall j | 0 <= j < |s| ensures s[j] != '\0' { assert parts[i][j] in parts[i]; }
    }
    if |parts| > 1 {
      LowerJoin(parts[1..]);
      assert Lowered(parts)[1..] == Lowered(parts[1..]);
      var rest := "\0" + Join(parts[1..], "\0");
      assert Join(parts, "\0") == parts[0] + rest;
      assert Lower(parts[0] + rest) == Lower(parts[0]) + Lower(rest);
      assert Lower(rest) == "\0" + Lower(Join(parts[1..], "\0"));
    }
  }

  lemma {:induction false} JoinedApart(x: seq<string>, y: seq<string>)
    requires |x| == |y| > 0 && Join(x, "\0") == Join(y, "\0")
    requires forall s :: s in x || s in y ==> '\0' !in s
    ensures x == y
  {
    if |x| > 1 {
      assert x[0] in x && y[0] in y;
      FirstSeparatorSplits(x[0], Join(x[1..], "\0"), y[0], Join(y[1..], "\0"), '\0');
      JoinedApart(x[1..], y[1..]);
      assert x == [x[0]] + x[1..] && y == [y[0]] + y[1..];
    }
  }

  /** The record that is kept of an offer: its own need's score, its owner where the
      scan has one, a fingerprint of owner, source and need, and the rest as offered. */
  predicate KeptFrom(c: Opportunity, offer: Opportunity, needs: Needs, owner: Option<string>) {
    && offer.needKey in needs && needs[offer.needKey].enabled
    && c.priority == OpportunityScore(offer.details, offer.confidence, needs[offer.needKey])
    && c.owner == (if owner.Some? then owner.value else offer.owner)
    && c.fingerprint == Fingerprint((if owner.Some? then [owner.value] else []) + [offer.sourceType, offer.sourceId, offer.needKey])
    && c == offer.(priority := c.priority, owner := c.owner, fingerprint := c.fingerprint)
  }

  /** Only offers that serve an enabled need are kept, each as such a record. */
  lemma {:induction false} AdmittedAreOffers(offered: seq<Opportunity>, needs: Needs, owner: Option<string>)
    ensures forall c :: c in Admitted(offered, needs, owner) ==> exists offer :: offer in offered && KeptFrom(c, offer, needs, owner)
  {
    hide Taken, OpportunityScore, Fingerprint;
    if offered != [] {
      var n := |offered| - 1;
      AdmittedAreOffers(offered[..n], needs, owner);
      assert offered == offered[..n] + [offered[n]];
      if Wanted(offered[n], needs) { assert KeptFrom(Ready(offered[n], needs, owner), offered[n], needs, owner); }
    }
  }

  ghost predicate Unique(s: seq<Opportunity>) {
    forall i, j :: 0 <= i < j < |s| ==> s[i].fingerprint != s[j].fingerprint
  }

  lemma UniqueMore(kept: seq<Opportunity>, c: Opportunity)
    requires Unique(kept) && !Taken(c.fingerprint, kept)
    ensures Unique(kept + [c])
  {}

  /** Admission lets the first wanted candidate of every fingerprint through, and no other. */
  lemma {:induction false} AdmittedAreFirst(offered: seq<Opportunity>, needs: Needs, owner: Option<string>)
    ensures Unique(Admitted(offered, needs, owner))
    ensures forall i :: 0 <= i < |offered| && Wanted(offered[i], needs) ==> Taken(Ready(offered[i], needs, owner).fingerprint, Admitted(offered, needs, owner))
    ensures forall c :: c in Admitted(offered, needs, owner) ==> IsFirst(c, offered, needs, owner)
  {
    hide Prepared, Taken, Unique, IsFirst;
    if offered == [] {
      assert Unique([]) by { NothingUnique(); }
    } else {
      var n := |offered| - 1;
      var kept, last := Admitted(offered[..n], needs, owner), offered[n];
      AdmittedAreFirst(offered[..n], needs, owner);
      forall i | 0 <= i < n && Wanted(offered[i], needs) ensures Taken(Ready(offered[i], needs, owner).fingerprint, kept) {
        assert offered[..n][i] == offered[i];
      }
      forall c | c in kept ensures IsFirst(c, offered, needs, owner) { FirstStays(c, offered, needs, owner); }
      if Wanted(last, needs) && !Taken(Ready(last, needs, owner).fingerprint, kept) {
        var c := Ready(last, needs, owner);
        UniqueMore(kept, c);
        TakenMore(kept, c);
        LastIsFirst(offered, needs, owner);
      }
    }
  }

  lemma NothingUnique()
    ensures Unique([])
  {}

  ghost predicate IsFirst(c: Opportunity, offered: seq<Opportunity>, needs: Needs, owner: Option<string>) {
    exists i :: 0 <= i < |offered| && Wanted(offered[i], needs) && Ready(offered[i], needs, owner) == c
      && forall j :: 0 <= j < i && Wanted(offered[j], needs) ==> Ready(offered[j], needs, owner).fingerprint != c.fingerprint
  }

  lemma FirstStays(c: Opportunity, offered: seq<Opportunity>, needs: Needs, owner: Option<string>)
    requires offered != [] && IsFirst(c, offered[..|offered| - 1], needs, owner)
    ensures IsFirst(c, offered, needs, owner)
  {
    hide Prepared;
    var g := offered[..|offered| - 1];
    var i :| 0 <= i < |g| && Wanted(g[i], needs) && Ready(g[i], needs, owner) == c
      && forall j :: 0 <= j < i && Wanted(g[j], needs) ==> Ready(g[j], needs, owner).fingerprint != c.fingerprint;
    assert offered[i] == g[i];
    forall j | 0 <= j < i && Wanted(offered[j], needs) ensures Ready(offered[j], needs, owner).fingerprint != c.fingerprint {
      assert offered[j] == g[j];
    }
  }

  lemma LastIsFirst(offered: seq<Opportunity>, needs: Needs, owner: Option<string>)
    requires offered != [] && Wanted(offered[|offered| - 1], needs)
    requires var n := |offered| - 1;
      forall i :: 0 <= i < n && Wanted(offered[i], needs) ==>
        Ready(offered[i], needs, owner).fingerprint != Ready(offered[n], needs, owner).fingerprint
    ensures IsFirst(Ready(offered[|offered| - 1], needs, owner), offered, needs, owner)
  {
    hide Prepared;
  }

  function WithPriority(p: int): Opportunity -> bool {
    (c: Opportunity) => c.priority == p
  }

  lemma PriorityIsOrder()
    ensures TotalPreorder(BY_PRIORITY)
  {}

  lemma SortedSplits(ranked: seq<Opportunity>, n: nat)
    requires n <= |ranked| && Sorted(ranked, BY_PRIORITY)
    ensures Sorted(ranked[..n], BY_PRIORITY)
    ensures forall x, y :: x in ranked[..n] && y in ranked[n..] ==> x.priority >= y.priority
  {
    forall x, y | x in ranked[..n] && y in ranked[n..] ensures x.priority >= y.priority {
      var i :| 0 <= i < n && ranked[i] == x;
      var j :| n <= j < |ranked| && ranked[j] == y;
      assert BY_PRIORITY(ranked[i], ranked[j]);
    }
  }

  lemma StablePrefix(all: seq<Opportunity>, n: nat, p: int)
    requires n <= |Sort(all, BY_PRIORITY)|
    ensures Filter(Sort(all, BY_PRIORITY)[..n], WithPriority(p)) <= Filter(all, WithPriority(p))
  {
    hide Filter, Sort;
    var ranked := Sort(all, BY_PRIORITY);
    TiesOfPriority(p);
    SortIsStable(all, BY_PRIORITY, WithPriority(p));
    assert ranked == ranked[..n] + ranked[n..];
    FilterSplits(ranked[..n], ranked[n..], WithPriority(p));
  }

  lemma TiesOfPriority(p: int)
    ensures AllTie(BY_PRIORITY, WithPriority(p))
  {}

  /** The kept list: each fingerprint once, best first, ties in the order offered,
      and nothing left out that scores higher than anything kept. */
  lemma TruncatedRanking(offered: seq<Opportunity>, needs: Needs, owner: Option<string>, limit: nat, p: int)
    ensures var all, ranked := Admitted(offered, needs, owner), Ranked(offered, needs, owner);
      var n := if |ranked| > limit then limit else |ranked|;
      var kept, omitted := ranked[..n], ranked[n..];
      && |ranked| == |all| && (forall c :: c in ranked <==> c in all)
      && Unique(kept) && Sorted(kept, BY_PRIORITY)
      && (forall x, y :: x in kept && y in omitted ==> x.priority >= y.priority)
      && Filter(kept, WithPriority(p)) <= Filter(all, WithPriority(p))
  {
    hide Admitted, Prepared, Unique, Filter, Sort, Sorted, IsFirst, Taken, TotalPreorder;
    var all, ranked := Admitted(offered, needs, owner), Ranked(offered, needs, owner);
    var n := if |ranked| > limit then limit else |ranked|;
    AdmittedAreFirst(offered, needs, owner);
    PriorityIsOrder();
    SortPermutes(all, BY_PRIORITY);
    SortIsSorted(all, BY_PRIORITY);
    SortedSplits(ranked, n);
    StablePrefix(all, n, p);
    UniqueRanked(all, ranked, n);
  }

  lemma UniqueRanked(all: seq<Opportunity>, ranked: seq<Opportunity>, n: nat)
    requires Unique(all) && multiset(ranked) == multiset(all) && n <= |ranked|
    ensures Unique(ranked[..n])
  {
    forall i, j | 0 <= i < j < n ensures ranked[i].fingerprint != ranked[j].fingerprint {
      assert ranked[i] in multiset(all) && ranked[j] in multiset(all);
      var p :| 0 <= p < |all| && all[p] == ranked[i];
      var q :| 0 <= q < |all| && all[q] == ranked[j];
      if p == q {
        RepeatedTwice(ranked, i, j);
        DistinctOnce(all, ranked[i]);
      }
    }
  }

  // Scan retention

  datatype ScanRecord = ScanRecord(id: string, startedAt: int)

  predicate Older(a: ScanRecord, b: ScanRecord) {
    a.startedAt < b.startedAt || (a.startedAt == b.startedAt && a.id != b.id && LexLe(a.id, b.id))
  }

  const NEWEST_FIRST: (ScanRecord, ScanRecord) -> bool := (a: ScanRecord, b: ScanRecord) => !Older(a, b)

  lemma NewestIsOrder()
    ensures TotalPreorder(NEWEST_FIRST)
  {
    forall a: ScanRecord, b: ScanRecord ensures NEWEST_FIRST(a, b) || NEWEST_FIRST(b, a) {
      if a.id != b.id && LexLe(a.id, b.id) && LexLe(b.id, a.id) { LexAntisymmetric(a.id, b.id); }
    }
    forall a: ScanRecord, b: ScanRecord, c: ScanRecord | NEWEST_FIRST(a, b) && NEWEST_FIRST(b, c) ensures NEWEST_FIRST(a, c) {
      LexTotal(a.id, b.id); LexTotal(b.id, c.id); LexTotal(a.id, c.id);
      if LexLe(c.id, b.id) && LexLe(b.id, a.id) { LexTransitive(c.id, b.id, a.id); }
      if LexLe(a.id, c.id) && LexLe(c.id, a.id) { LexAntisymmetric(a.id, c.id); }
    }
  }

  class ScanTable {
    var rows: set<ScanRecord>

    constructor ()
      ensures rows == {}
    { rows := {}; }

    method Listing() returns (listed: seq<ScanRecord>)
      ensures forall x :: x in listed <==> x in rows
      ensures forall i, j :: 0 <= i < j < |listed| ==> listed[i] != listed[j]
    {
      listed := [];
      var left := rows;
      while left != {}
        invariant left <= rows
        invariant forall x :: x in listed <==> x in rows && x !in left
        invariant forall i, j :: 0 <= i < j < |listed| ==> listed[i] != listed[j]
        decreases left
      {
        var x :| x in left;
        left := left - {x};
        listed := listed + [x];
      }
    }

    /** Leaves exactly the newest scans, as many as asked for and at least ten. */
    method PruneScans(keep: int)
      modifies this
      ensures var bound := if keep < 10 then 10 else keep;
        && rows <= old(rows)
        && |rows| == (if |old(rows)| < bound then |old(rows)| else bound)
        && forall x, y :: x in rows && y in old(rows) - rows ==>
          y.startedAt < x.startedAt || (y.startedAt == x.startedAt && y.id != x.id && LexLe(y.id, x.id))
    {
      hide Older;
      var bound := if keep < 10 then 10 else keep;
      var listed := Listing();
      var sorted := Sort(listed, NEWEST_FIRST);
      StrictlyNewest(listed);
      SortPermutes(listed, NEWEST_FIRST);
      DistinctCount(listed, rows);
      if |sorted| < bound { return; }
      var cutoff := sorted[bound - 1];
      ghost var before := rows;
      rows := set x | x in rows && !Older(x, cutoff);
      CutoffKeepsNewest(before, sorted, bound, rows);
      forall x, y | x in rows && y in before - rows
        ensures y.startedAt < x.startedAt || (y.startedAt == x.startedAt && y.id != x.id && LexLe(y.id, x.id))
      {
        OlderSays(y, x);
      }
    }
  }

  lemma OlderSays(y: ScanRecord, x: ScanRecord)
    requires Older(y, x)
    ensures y.startedAt < x.startedAt || (y.startedAt == x.startedAt && y.id != x.id && LexLe(y.id, x.id))
  {}

  lemma StrictlyNewest(listed: seq<ScanRecord>)
    requires forall i, j :: 0 <= i < j < |listed| ==> listed[i] != listed[j]
    ensures StrictlySorted(Sort(listed, NEWEST_FIRST), NEWEST_FIRST)
  {
    NewestIsOrder();
    forall i, j | 0 <= i < j < |listed| ensures !Ties(listed[i], listed[j], NEWEST_FIRST) {
      NewestTies(listed[i], listed[j]);
    }
    SortIsStrict(listed, NEWEST_FIRST);
  }

  lemma NewestTies(a: ScanRecord, b: ScanRecord)
    ensures Ties(a, b, NEWEST_FIRST) ==> a == b
  {
    LexTotal(a.id, b.id);
    assert Ties(a, b, NEWEST_FIRST) ==> NEWEST_FIRST(a, b) && NEWEST_FIRST(b, a);
  }

  lemma {:induction false} DistinctCount<T>(s: seq<T>, members: set<T>)
    requires forall i, j :: 0 <= i < j < |s| ==> s[i] != s[j]
    requires forall x :: x in s <==> x in members
    ensures |members| == |s|
  {
    if s == [] {
      assert members == {};
    } else {
      var n := |s| - 1;
      assert s == s[..n] + [s[n]];
      assert s[n] in members && s[n] !in s[..n];
      DistinctCount(s[..n], members - {s[n]});
    }
  }

  lemma CutoffKeepsNewest(before: set<ScanRecord>, sorted: seq<ScanRecord>, bound: nat, after: set<ScanRecord>)
    requires 0 < bound <= |sorted| && StrictlySorted(sorted, NEWEST_FIRST)
    requires forall x :: x in sorted <==> x in before
    requires after == set x | x in before && !Older(x, sorted[bound - 1])
    ensures after <= before && |after| == bound
    ensures forall x, y :: x in after && y in before - after ==> Older(y, x)
  {
    hide Older;
    var top := sorted[..bound];
    forall i, j | 0 <= i < j < |sorted| ensures Older(sorted[j], sorted[i]) && !Older(sorted[i], sorted[j]) && sorted[i] != sorted[j] {
      assert NEWEST_FIRST(sorted[i], sorted[j]) && !NEWEST_FIRST(sorted[j], sorted[i]);
    }
    NotOlderThanItself(sorted[bound - 1]);
    forall x ensures x in top <==> x in after {
      if x in top {
        var i :| 0 <= i < bound && sorted[i] == x;
        assert x in sorted;
      }
      if x in after {
        var i :| 0 <= i < |sorted| && sorted[i] == x;
      }
    }
    DistinctCount(top, after);
    forall k | 0 <= k < bound ensures sorted[k] in top { assert top[k] == sorted[k]; }
    forall x, y | x in after && y in before - after ensures Older(y, x) {
      var i :| 0 <= i < bound && sorted[i] == x;
      var j :| 0 <= j < |sorted| && sorted[j] == y;
      assert y !in top;
    }
  }

  lemma NotOlderThanItself(x: ScanRecord)
    ensures !Older(x, x)
  {}
}
