/** What the registry service decides about one agent or one request: validation,
    normalisation, readiness, lifecycle edges, eligibility and the score. */
module RegistryRules {
  import opened Wrappers
  import opened RegistryTypes
  import opened Sorting
  import opened Text

  /** The two scans over free text whose patterns are not part of this model. */
  datatype Checks = Checks(secret: string -> bool, credentials: string -> bool)

  // Validation

  predicate ValidIdentity(c: Checks, value: string) {
    var v := Trim(value);
    v != "" && |v| <= 256 && !c.secret(v)
  }

  predicate AlphaNumeric(ch: char) {
    'a' <= ch <= 'z' || 'A' <= ch <= 'Z' || '0' <= ch <= '9'
  }

  predicate IdentifierShape(v: string) {
    1 <= |v| <= 256 && AlphaNumeric(v[0]) && forall i :: 1 <= i < |v| ==> AlphaNumeric(v[i]) || v[i] in "._:/@-"
  }

  predicate ValidIdentifier(c: Checks, value: string) {
    IdentifierShape(Trim(value)) && !c.secret(value)
  }

  predicate ValidText(c: Checks, value: string, required: bool) {
    var v := Trim(value);
    (required ==> v != "") && |v| <= 2048 && !c.secret(v)
  }

  function Slashed(s: string): string {
    seq(|s|, i requires 0 <= i < |s| => if s[i] == '\\' then '/' else s[i])
  }

  function FoldedKey(value: string): string {
    Lower(Trim(value))
  }

  predicate ValidAllowlist(c: Checks, values: seq<string>, paths: bool) {
    && (forall v :: v in values ==> Trim(v) != "" && |Trim(v)| <= 2048 && !c.secret(Trim(v)) && !c.credentials(Trim(v)))
    && (forall i, j :: 0 <= i < j < |values| ==>
          if paths then Slashed(FoldedKey(values[i])) != Slashed(FoldedKey(values[j]))
          else FoldedKey(values[i]) != FoldedKey(values[j]))
  }

  predicate ValidCapabilities(c: Checks, values: seq<Capability>) {
    && values != []
    && (forall v :: v in values ==> ValidIdentifier(c, v.id) && ValidAllowlist(c, v.operations, false))
    && (forall i, j :: 0 <= i < j < |values| ==> Lower(values[i].id) != Lower(values[j].id))
  }

  predicate ValidProfile(c: Checks, p: Profile) {
    && ValidText(c, p.name, true) && ValidIdentifier(c, p.runtimeId) && ValidIdentifier(c, p.runtimeType)
    && 0 <= p.authorityCeiling <= 10 && 0 <= p.autonomyCeiling <= 10
    && ValidCapabilities(c, p.capabilities)
    && ValidAllowlist(c, p.tools, false) && ValidAllowlist(c, p.data, false) && ValidAllowlist(c, p.folders, true)
  }

  /** Everything ValidateAgent asks for except the timestamps. */
  predicate SoundAgent(c: Checks, a: Agent) {
    && a.contractVersion == CONTRACT_VERSION
    && ValidIdentifier(c, a.id) && ValidIdentity(c, a.owner) && ValidProfile(c, a.profile)
    && ValidText(c, a.health.reason, false) && a.health.freshFor >= 0
    && 0 <= a.availability.active <= a.availability.max && a.availability.max >= 1
    && a.performance.cost >= 0.0 && a.performance.p95LatencyMs >= 0
    && a.reliability.meanLatencyMs >= 0.0
    && a.reliability.consecutiveFailures <= a.reliability.failures
    && a.revision > 0
  }

  predicate ValidateAgent(c: Checks, a: Agent, now: int) {
    && SoundAgent(c, a)
    && a.createdAt != UNSET_TIME && a.updatedAt != UNSET_TIME && a.createdAt <= a.updatedAt
    && a.createdAt <= now + MINUTE && a.updatedAt <= now + MINUTE
  }

  // Versions

  function CompareVersions(v: Version, w: Version): int {
    if v.major != w.major then (if v.major < w.major then -1 else 1)
    else if v.minor != w.minor then (if v.minor < w.minor then -1 else 1)
    else if v.patch != w.patch then (if v.patch < w.patch then -1 else 1)
    else 0
  }

  predicate VersionInRange(v: Version, low: Option<Version>, high: Option<Version>) {
    (low.Some? ==> CompareVersions(v, low.value) >= 0) && (high.Some? ==> CompareVersions(v, high.value) <= 0)
  }

  predicate ValidRange(low: Option<Version>, high: Option<Version>) {
    low.Some? && high.Some? ==> CompareVersions(low.value, high.value) <= 0
  }

  predicate ValidateRequest(c: Checks, r: Request) {
    && ValidIdentity(c, r.owner) && ValidIdentifier(c, r.taskId)
    && r.capabilities != []
    && (forall n :: n in r.capabilities ==>
          ValidIdentifier(c, n.id) && ValidRange(n.min, n.max) && ValidAllowlist(c, n.operations, false))
    && (forall i, j :: 0 <= i < j < |r.capabilities| ==> Lower(r.capabilities[i].id) != Lower(r.capabilities[j].id))
    && (r.runtimeId != "" ==> ValidIdentifier(c, r.runtimeId))
    && (r.runtimeType != "" ==> ValidIdentifier(c, r.runtimeType))
    && ValidRange(r.minProtocol, r.maxProtocol)
    && 0 <= r.authority <= r.policyMaxAuthority <= 10
    && 0 <= r.autonomy <= r.policyMaxAutonomy <= 10
    && (r.maxCost.Some? ==> r.maxCost.value >= 0.0)
    && ValidAllowlist(c, r.tools, false) && ValidAllowlist(c, r.data, false) && ValidAllowlist(c, r.folders, true)
  }

  // Normalisation

  const BY_FOLDED: (string, string) -> bool := (a: string, b: string) => LexLe(FoldedKey(a), FoldedKey(b))

  predicate KeyAmong(key: string, values: seq<string>) {
    exists i :: 0 <= i < |values| && FoldedKey(values[i]) == key
  }

  /** The trimmed non-blank values, each key with its first spelling only. */
  function FirstSpellings(values: seq<string>): seq<string> {
    if values == [] then []
    else
      var kept := FirstSpellings(values[..|values| - 1]);
      var last := values[|values| - 1];
      if Trim(last) == "" || KeyAmong(FoldedKey(last), kept) then kept else kept + [Trim(last)]
  }

  function NormalizeUnique(values: seq<string>): seq<string> {
    Sort(FirstSpellings(values), BY_FOLDED)
  }

  lemma FoldedIsOrder()
    ensures TotalPreorder(BY_FOLDED)
  {
    forall a: string, b: string ensures BY_FOLDED(a, b) || BY_FOLDED(b, a) { LexTotal(FoldedKey(a), FoldedKey(b)); }
    forall a: string, b: string, c: string | BY_FOLDED(a, b) && BY_FOLDED(b, c) ensures BY_FOLDED(a, c) {
      LexTransitive(FoldedKey(a), FoldedKey(b), FoldedKey(c));
    }
  }

  ghost predicate IsFirstSpelling(w: string, values: seq<string>) {
    exists i :: 0 <= i < |values| && Trim(values[i]) == w && w != ""
      && forall j :: 0 <= j < i ==> FoldedKey(values[j]) != FoldedKey(values[i])
  }

  lemma SnocSpelling(w: string, values: seq<string>)
    requires values != []
    ensures var n := |values| - 1;
      IsFirstSpelling(w, values) <==>
        IsFirstSpelling(w, values[..n]) || (w == Trim(values[n]) && w != "" && !KeyAmong(FoldedKey(values[n]), values[..n]))
  {
    hide Trim, FoldedKey;
    var n := |values| - 1;
    forall i | 0 <= i < n ensures values[..n][i] == values[i] {}
    if IsFirstSpelling(w, values) {
      var i :| 0 <= i <= n && Trim(values[i]) == w && w != "" && forall j :: 0 <= j < i ==> FoldedKey(values[j]) != FoldedKey(values[i]);
      if i < n {
        assert Trim(values[..n][i]) == w && forall j :: 0 <= j < i ==> FoldedKey(values[..n][j]) != FoldedKey(values[..n][i]);
      }
    }
    if IsFirstSpelling(w, values[..n]) {
      var i :| 0 <= i < n && Trim(values[..n][i]) == w && forall j :: 0 <= j < i ==> FoldedKey(values[..n][j]) != FoldedKey(values[..n][i]);
      assert Trim(values[i]) == w && forall j :: 0 <= j < i ==> FoldedKey(values[j]) != FoldedKey(values[i]) by {
        forall j | 0 <= j < i ensures FoldedKey(values[j]) != FoldedKey(values[i]) { assert values[..n][j] == values[j]; }
      }
    }
    if w == Trim(values[n]) && w != "" && !KeyAmong(FoldedKey(values[n]), values[..n]) {
      forall j | 0 <= j < n ensures FoldedKey(values[j]) != FoldedKey(values[n]) { assert values[..n][j] == values[j]; }
    }
  }

  lemma KeyEmptyIffBlank(value: string)
    ensures FoldedKey(value) == "" <==> Trim(value) == ""
    ensures FoldedKey(Trim(value)) == FoldedKey(value)
  {
    hide Trim;
    TrimIdempotent(value);
    assert |FoldedKey(value)| == |Trim(value)|;
  }

  lemma {:induction false} FirstSpellingsMembers(values: seq<string>)
    ensures forall w :: w in FirstSpellings(values) <==> IsFirstSpelling(w, values)
    ensures forall key :: key != "" ==> (KeyAmong(key, FirstSpellings(values)) <==> KeyAmong(key, values))
  {
    hide Trim, FoldedKey, KeyAmong, IsFirstSpelling;
    if values == [] {
      NothingSpelled();
    } else {
      var n := |values| - 1;
      var last, kept, all := values[n], FirstSpellings(values[..n]), FirstSpellings(values);
      FirstSpellingsMembers(values[..n]);
      KeyEmptyIffBlank(last);
      forall key | key != "" ensures KeyAmong(key, all) <==> KeyAmong(key, values) { SnocKey(key, values, kept, all); }
      forall w ensures w in all <==> IsFirstSpelling(w, values) { SnocSpelling(w, values); }
    }
  }

  lemma NothingSpelled()
    ensures forall w :: !IsFirstSpelling(w, [])
    ensures forall key :: !KeyAmong(key, [])
  {}

  lemma {:induction false} FirstSpellingsDistinct(values: seq<string>)
    ensures forall w :: w in FirstSpellings(values) ==> Trim(w) == w
    ensures forall i, j :: 0 <= i < j < |FirstSpellings(values)| ==>
      FoldedKey(FirstSpellings(values)[i]) != FoldedKey(FirstSpellings(values)[j])
  {
    hide Trim, FoldedKey;
    if values != [] {
      FirstSpellingsDistinct(values[..|values| - 1]);
      TrimIdempotent(values[|values| - 1]);
      KeyEmptyIffBlank(values[|values| - 1]);
    }
  }

  lemma SnocKey(key: string, values: seq<string>, kept: seq<string>, all: seq<string>)
    requires values != [] && key != ""
    requires KeyAmong(key, kept) <==> KeyAmong(key, values[..|values| - 1])
    requires var last := values[|values| - 1];
      && (Trim(last) == "" || KeyAmong(FoldedKey(last), kept) ==> all == kept)
      && (Trim(last) != "" && !KeyAmong(FoldedKey(last), kept) ==> all == kept + [Trim(last)])
    ensures KeyAmong(key, all) <==> KeyAmong(key, values)
  {
    hide Trim;
    var n := |values| - 1;
    var last := values[n];
    TrimIdempotent(last);
    assert |FoldedKey(last)| == |Trim(last)|;
    if KeyAmong(key, values) {
      var i :| 0 <= i <= n && FoldedKey(values[i]) == key;
      if i < n {
        assert FoldedKey(values[..n][i]) == key;
        var k :| 0 <= k < |kept| && FoldedKey(kept[k]) == key;
        assert FoldedKey(all[k]) == key;
      } else if all != kept {
        assert FoldedKey(all[|kept|]) == key;
      }
    }
    if KeyAmong(key, all) {
      var k :| 0 <= k < |all| && FoldedKey(all[k]) == key;
      if k < |kept| {
        assert FoldedKey(kept[k]) == key;
        var i :| 0 <= i < n && FoldedKey(values[..n][i]) == key;
        assert FoldedKey(values[i]) == key;
      } else {
        assert FoldedKey(values[n]) == key;
      }
    }
  }

  /** normalizeUnique keeps the first spelling of every key, sorted by key. */
  lemma NormalizeUniqueKeepsFirstSpellings(values: seq<string>)
    ensures StrictlySorted(NormalizeUnique(values), BY_FOLDED)
    ensures forall w :: w in NormalizeUnique(values) <==> IsFirstSpelling(w, values)
  {
    hide Trim;
    var kept := FirstSpellings(values);
    FirstSpellingsMembers(values);
    FirstSpellingsDistinct(values);
    FoldedIsOrder();
    forall i, j | 0 <= i < j < |kept| ensures !Ties(kept[i], kept[j], BY_FOLDED) {
      if Ties(kept[i], kept[j], BY_FOLDED) { LexAntisymmetric(FoldedKey(kept[i]), FoldedKey(kept[j])); }
    }
    SortIsStrict(kept, BY_FOLDED);
    SortPermutes(kept, BY_FOLDED);
  }

  method NormalizeUniqueLoop(values: seq<string>) returns (result: seq<string>)
    ensures result == NormalizeUnique(values)
  {
    hide Trim, KeyAmong, FoldedKey;
    KeyAmongNone();
    var seen: map<string, string> := map[];
    for i := 0 to |values|
      invariant forall key :: key in seen <==> key != "" && KeyAmong(key, FirstSpellings(values[..i]))
      invariant forall key :: key in seen ==> seen[key] in FirstSpellings(values[..i]) && FoldedKey(seen[key]) == key
    {
      ghost var kept := FirstSpellings(values[..i]);
      assert values[..i + 1][..i] == values[..i];
      var trimmed := Trim(values[i]);
      var key := Lower(trimmed);
      KeyEmptyIffBlank(values[i]);
      assert key == FoldedKey(values[i]) by { KeyIsLowered(values[i]); }
      if key !in seen && trimmed != "" {
        seen := seen[key := trimmed];
        assert FirstSpellings(values[..i + 1]) == kept + [trimmed];
        forall k ensures KeyAmong(k, kept + [trimmed]) <==> KeyAmong(k, kept) || k == key { KeyAmongSnoc(k, kept, trimmed); }
      } else {
        assert FirstSpellings(values[..i + 1]) == kept;
      }
    }
    assert values[..|values|] == values;
    ghost var kept := FirstSpellings(values);
    var left, keys := seen.Keys, [];
    while left != {}
      invariant left <= seen.Keys
      invariant forall key :: key in keys <==> key in seen && key !in left
      invariant forall i, j :: 0 <= i < j < |keys| ==> keys[i] != keys[j]
      decreases left
    {
      var key :| key in left;
      left := left - {key};
      keys := keys + [key];
    }
    var sorted := SortedKeys(keys);
    result := [];
    for i := 0 to |sorted|
      invariant |result| == i
      invariant forall j :: 0 <= j < i ==> result[j] == seen[sorted[j]]
    {
      assert sorted[i] in keys;
      result := result + [seen[sorted[i]]];
    }
    SpelledKeysAreNormalized(values, seen, sorted, result);
  }

  lemma KeyAmongNone()
    ensures forall key :: !KeyAmong(key, [])
  {}

  lemma KeyIsLowered(value: string)
    ensures FoldedKey(value) == Lower(Trim(value))
  {}

  lemma KeyAmongSnoc(key: string, values: seq<string>, last: string)
    ensures KeyAmong(key, values + [last]) <==> KeyAmong(key, values) || key == FoldedKey(last)
  {
    hide FoldedKey;
    var all := values + [last];
    if KeyAmong(key, values) {
      var i :| 0 <= i < |values| && FoldedKey(values[i]) == key;
      assert FoldedKey(all[i]) == key;
    }
    assert all[|values|] == last;
  }

  method SortedKeys(keys: seq<string>) returns (sorted: seq<string>)
    requires forall i, j :: 0 <= i < j < |keys| ==> keys[i] != keys[j]
    ensures StrictlySorted(sorted, LEX)
    ensures forall key :: key in sorted <==> key in keys
  {
    sorted := Sort(keys, LEX);
    LexIsOrder();
    forall i, j | 0 <= i < j < |keys| ensures !Ties(keys[i], keys[j], LEX) {
      if Ties(keys[i], keys[j], LEX) { LexAntisymmetric(keys[i], keys[j]); }
    }
    SortIsStrict(keys, LEX);
    SortPermutes(keys, LEX);
  }

  lemma SpelledKeysAreNormalized(values: seq<string>, seen: map<string, string>, sorted: seq<string>, result: seq<string>)
    requires StrictlySorted(sorted, LEX) && |result| == |sorted|
    requires forall key :: key in sorted <==> key in seen
    requires forall key :: key in seen <==> key != "" && KeyAmong(key, FirstSpellings(values))
    requires forall key :: key in seen ==> seen[key] in FirstSpellings(values) && FoldedKey(seen[key]) == key
    requires forall j :: 0 <= j < |sorted| ==> sorted[j] in seen && result[j] == seen[sorted[j]]
    ensures result == NormalizeUnique(values)
  {
    hide Trim;
    var kept := FirstSpellings(values);
    FirstSpellingsMembers(values);
    FirstSpellingsDistinct(values);
    NormalizeUniqueKeepsFirstSpellings(values);
    forall i, j | 0 <= i < j < |result| ensures BY_FOLDED(result[i], result[j]) && !BY_FOLDED(result[j], result[i]) {
      assert LEX(sorted[i], sorted[j]) && !LEX(sorted[j], sorted[i]);
      assert FoldedKey(result[i]) == sorted[i] && FoldedKey(result[j]) == sorted[j];
    }
    forall w | w in kept ensures w in result {
      assert IsFirstSpelling(w, values);
      assert |FoldedKey(w)| == |Trim(w)| && Trim(w) == w;
      var k :| 0 <= k < |kept| && kept[k] == w;
      assert KeyAmong(FoldedKey(w), kept);
      assert FoldedKey(w) in sorted;
      var i :| 0 <= i < |sorted| && sorted[i] == FoldedKey(w);
      var l :| 0 <= l < |kept| && kept[l] == seen[sorted[i]];
      assert l == k;
      assert result[i] == w;
    }
    forall w | w in result ensures w in kept {
      var i :| 0 <= i < |result| && result[i] == w;
    }
    forall w ensures w in result <==> w in NormalizeUnique(values) { assert w in kept <==> IsFirstSpelling(w, values); }
    StrictOrderIsUnique(result, NormalizeUnique(values), BY_FOLDED);
  }

  const BY_CAPABILITY: (Capability, Capability) -> bool := (a: Capability, b: Capability) => LexLe(Lower(a.id), Lower(b.id))

  function NormalizeProfile(p: Profile): Profile {
    var ordered := Sort(p.capabilities, BY_CAPABILITY);
    p.(tools := NormalizeUnique(p.tools), data := NormalizeUnique(p.data), folders := NormalizeUnique(p.folders),
       capabilities := seq(|ordered|, i requires 0 <= i < |ordered| =>
         ordered[i].(operations := NormalizeUnique(ordered[i].operations))))
  }

  // Readiness, lifecycle, eligibility

  predicate AgentReady(a: Agent, now: int, allowDegraded: bool) {
    && a.health.ready && a.availability.available && a.availability.active < a.availability.max
    && a.health.checkedAt != UNSET_TIME && a.health.freshFor > 0
    && now <= a.health.checkedAt + a.health.freshFor
    && (a.health.status == Healthy || (allowDegraded && a.health.status == Degraded))
  }

  predicate TransitionAllowed(from: LifecycleState, to: LifecycleState) {
    match from
    case Registered => to in {Enabled, Disabled, Quarantined}
    case Enabled => to in {Draining, Disabled, Quarantined}
    case Draining => to in {Enabled, Disabled, Quarantined}
    case Disabled => to in {Enabled, Quarantined}
    case Quarantined => to == Disabled
  }

  function FoldedKeys(values: seq<string>): set<string> {
    set v | v in values :: FoldedKey(v)
  }

  predicate ContainsAll(available: seq<string>, required: seq<string>) {
    FoldedKeys(required) <= FoldedKeys(available)
  }

  function NormalizeFolder(value: string): string {
    var v := Lower(Slashed(Trim(value)));
    if v != "" && v[|v| - 1] == '/' then v[..|v| - 1] else v
  }

  predicate Within(requested: string, allowed: string) {
    requested == allowed || allowed + "/" <= requested
  }

  predicate ContainsAllFolders(available: seq<string>, required: seq<string>) {
    forall r :: r in required ==> exists a :: a in available && Within(NormalizeFolder(r), NormalizeFolder(a))
  }

  /** The declaration a lookup by lower-cased ID finds: the last one. */
  function Declared(available: seq<Capability>, id: string): Option<Capability> {
    if available == [] then None
    else if Lower(available[|available| - 1].id) == Lower(id) then Some(available[|available| - 1])
    else Declared(available[..|available| - 1], id)
  }

  predicate CapabilitiesMatch(available: seq<Capability>, required: seq<CapabilityNeed>) {
    forall n :: n in required ==>
      var found := Declared(available, n.id);
      found.Some? && VersionInRange(found.value.version, n.min, n.max) && ContainsAll(found.value.operations, n.operations)
  }

  predicate CompatibilityMatches(a: Agent, r: Request) {
    && (r.runtimeId == "" || Lower(r.runtimeId) == Lower(a.profile.runtimeId))
    && (r.runtimeType == "" || Lower(r.runtimeType) == Lower(a.profile.runtimeType))
    && VersionInRange(a.profile.protocol, r.minProtocol, r.maxProtocol)
  }

  predicate Eligible(a: Agent, r: Request, now: int) {
    && a.state == Enabled && AgentReady(a, now, r.allowDegraded)
    && (r.allowedTypes == [] || a.profile.agentType in r.allowedTypes)
    && r.authority <= a.profile.authorityCeiling && r.autonomy <= a.profile.autonomyCeiling
    && r.authority <= r.policyMaxAuthority && r.autonomy <= r.policyMaxAutonomy
    && CompatibilityMatches(a, r) && CapabilitiesMatch(a.profile.capabilities, r.capabilities)
    && ContainsAll(a.profile.tools, r.tools) && ContainsAll(a.profile.data, r.data)
    && ContainsAllFolders(a.profile.folders, r.folders)
    && (r.requireLocal ==> a.performance.locality == Local)
    && (r.maxCost.Some? ==> a.performance.cost <= r.maxCost.value)
  }

  /** Normalising an allowlist never changes which non-blank requirements it grants. */
  lemma NormalizingKeepsGrants(available: seq<string>, required: seq<string>)
    requires forall r :: r in required ==> !Blank(r)
    ensures ContainsAll(NormalizeUnique(available), required) <==> ContainsAll(available, required)
  {
    hide Trim;
    var kept, normal := FirstSpellings(available), NormalizeUnique(available);
    FirstSpellingsMembers(available);
    SortPermutes(kept, BY_FOLDED);
    forall r | r in required ensures FoldedKey(r) in FoldedKeys(normal) <==> FoldedKey(r) in FoldedKeys(available) {
      TrimIdempotent(r);
      assert |FoldedKey(r)| == |Trim(r)|;
      KeyInFolded(FoldedKey(r), kept);
      KeyInFolded(FoldedKey(r), available);
      KeyInFolded(FoldedKey(r), normal);
      KeyAmongMembers(FoldedKey(r), kept, normal);
    }
  }

  lemma KeyInFolded(key: string, values: seq<string>)
    ensures key in FoldedKeys(values) <==> KeyAmong(key, values)
  {
    hide Trim;
    if KeyAmong(key, values) {
      var i :| 0 <= i < |values| && FoldedKey(values[i]) == key;
      assert values[i] in values;
    }
  }

  lemma KeyAmongMembers(key: string, a: seq<string>, b: seq<string>)
    requires forall w :: w in a <==> w in b
    ensures KeyAmong(key, a) <==> KeyAmong(key, b)
  {
    hide Trim;
    if KeyAmong(key, a) {
      var i :| 0 <= i < |a| && FoldedKey(a[i]) == key;
      assert a[i] in b;
    }
    if KeyAmong(key, b) {
      var i :| 0 <= i < |b| && FoldedKey(b[i]) == key;
      assert b[i] in a;
    }
  }

  // The score

  /** Rounding half away from zero. */
  function Round(x: real): int {
    if x >= 0.0 then (x + 0.5).Floor else -(0.5 - x).Floor
  }

  function RoundScore(x: real): real {
    Round(x * 10000.0) as real / 10000.0
  }

  function ReliabilityScore(r: Reliability): real {
    (r.successes + 1) as real / (r.successes + r.failures + 2) as real
  }

  function AuthorityScore(a: Agent, r: Request): real {
    var fit := 10.0 - (a.profile.authorityCeiling - r.authority) as real * 0.5;
    if fit > 0.0 then fit else 0.0
  }

  function HealthScore(a: Agent): real {
    if a.health.status == Degraded then 8.0 else 15.0
  }

  function LoadScore(a: Agent): real
    requires a.availability.max != 0
  {
    10.0 * (1.0 - a.availability.active as real / a.availability.max as real)
  }

  function CostScore(a: Agent, r: Request): real {
    if r.maxCost.Some? && r.maxCost.value > 0.0 then 5.0 * (1.0 - a.performance.cost / r.maxCost.value) else 5.0
  }

  function LocalityScore(l: Locality): real {
    match l case Local => 10.0 case Lan => 6.0 case Cloud => 3.0
  }

  function Components(a: Agent, r: Request): seq<Component>
    requires a.availability.max != 0
  {
    [Component("capability", 25.0),
     Component("authority", RoundScore(AuthorityScore(a, r))),
     Component("health", RoundScore(HealthScore(a))),
     Component("reliability", RoundScore(15.0 * ReliabilityScore(a.reliability))),
     Component("load", RoundScore(LoadScore(a))),
     Component("cost", RoundScore(CostScore(a, r))),
     Component("locality", LocalityScore(a.performance.locality))]
  }

  function Total(components: seq<Component>): real {
    if components == [] then 0.0
    else Total(components[..|components| - 1]) + components[|components| - 1].score
  }

  function Score(a: Agent, r: Request): real
    requires a.availability.max != 0
  {
    RoundScore(Total(Components(a, r)) / 90.0)
  }

  lemma RoundIsMonotone(x: real, y: real)
    requires x <= y
    ensures Round(x) <= Round(y)
  {}

  lemma RoundOfWhole(n: int)
    ensures Round(n as real) == n
  {}

  /** Rounding to four decimals is idempotent and keeps the bounds that are
      themselves multiples of one ten-thousandth. */
  lemma RoundScoreStaysWithin(x: real, low: int, high: int)
    requires low as real / 10000.0 <= x <= high as real / 10000.0
    ensures low as real / 10000.0 <= RoundScore(x) <= high as real / 10000.0
    ensures RoundScore(RoundScore(x)) == RoundScore(x)
  {
    RoundIsMonotone(low as real, x * 10000.0);
    RoundIsMonotone(x * 10000.0, high as real);
    RoundOfWhole(low);
    RoundOfWhole(high);
    RoundOfWhole(Round(x * 10000.0));
  }

  lemma FractionWithin(p: real, q: real)
    requires 0.0 <= p <= q && q > 0.0
    ensures 0.0 <= p / q <= 1.0
  {}

  lemma TotalOfComponents(a: Agent, r: Request)
    requires a.availability.max != 0
    ensures var cs := Components(a, r);
      Total(cs) == cs[0].score + cs[1].score + cs[2].score + cs[3].score + cs[4].score + cs[5].score + cs[6].score
  {
    hide RoundScore, AuthorityScore, ReliabilityScore, LoadScore, CostScore, LocalityScore;
    var cs := Components(a, r);
    assert cs[..6][..5] == cs[..5] && cs[..5][..4] == cs[..4] && cs[..4][..3] == cs[..3] && cs[..3][..2] == cs[..2] && cs[..2][..1] == cs[..1] && cs[..1][..0] == [];
    assert Total(cs[..1]) == cs[0].score;
    assert Total(cs[..2]) == cs[0].score + cs[1].score;
    assert Total(cs[..3]) == cs[0].score + cs[1].score + cs[2].score;
    assert Total(cs[..4]) == cs[0].score + cs[1].score + cs[2].score + cs[3].score;
    assert Total(cs[..5]) == cs[0].score + cs[1].score + cs[2].score + cs[3].score + cs[4].score;
    assert Total(cs[..6]) == cs[0].score + cs[1].score + cs[2].score + cs[3].score + cs[4].score + cs[5].score;
  }

  lemma ComponentBounds(c: Checks, a: Agent, r: Request, now: int)
    requires SoundAgent(c, a) && ValidateRequest(c, r) && Eligible(a, r, now)
    ensures 5.0 <= AuthorityScore(a, r) <= 10.0
    ensures 0.0 <= 15.0 * ReliabilityScore(a.reliability) <= 15.0
    ensures 0.0 <= LoadScore(a) <= 10.0
    ensures 0.0 <= CostScore(a, r) <= 5.0
  {
    hide ValidIdentity, ValidIdentifier, ValidText, ValidAllowlist, ValidCapabilities, CapabilitiesMatch, ContainsAll, ContainsAllFolders, CompatibilityMatches;
    FractionWithin(a.availability.active as real, a.availability.max as real);
    FractionWithin((a.reliability.successes + 1) as real, (a.reliability.successes + a.reliability.failures + 2) as real);
    if r.maxCost.Some? && r.maxCost.value > 0.0 { FractionWithin(a.performance.cost, r.maxCost.value); }
  }

  /** An eligible agent scores between 0.4555 and 1, although every component is
      rounded by itself: the persistence check on scores can never reject one. */
  lemma EligibleScoreBounds(c: Checks, a: Agent, r: Request, now: int)
    requires SoundAgent(c, a) && ValidateRequest(c, r) && Eligible(a, r, now)
    ensures 0.4555 <= Score(a, r) <= 1.0
    ensures RoundScore(Score(a, r)) == Score(a, r)
  {
    hide Round, RoundScore, SoundAgent, ValidateRequest, Eligible, AuthorityScore, ReliabilityScore, LoadScore, CostScore, Total;
    SlotsExist(c, a);
    ComponentBounds(c, a, r, now);
    TotalOfComponents(a, r);
    RoundScoreStaysWithin(AuthorityScore(a, r), 50000, 100000);
    RoundScoreStaysWithin(HealthScore(a), 80000, 150000);
    RoundScoreStaysWithin(15.0 * ReliabilityScore(a.reliability), 0, 150000);
    RoundScoreStaysWithin(LoadScore(a), 0, 100000);
    RoundScoreStaysWithin(CostScore(a, r), 0, 50000);
    var total := Total(Components(a, r));
    assert 41.0 <= total <= 90.0;
    RoundScoreStaysWithin(total / 90.0, 4555, 10000);
  }

  // What the score prefers, said over the records

  function Ratio(n: int, d: int): real
    requires d > 0
  {
    n as real / d as real
  }

  predicate AsNear(a: Locality, b: Locality) {
    a == b || a == Local || b == Cloud
  }

  /** In no respect the worse choice: no more surplus authority, no worse health, no
      fewer successes, no more failures, no fuller, no dearer and no farther away. */
  predicate NoWorse(a: Agent, b: Agent) {
    && a.profile.authorityCeiling <= b.profile.authorityCeiling
    && (a.health.status == Degraded ==> b.health.status == Degraded)
    && a.reliability.successes >= b.reliability.successes && a.reliability.failures <= b.reliability.failures
    && a.availability.active * b.availability.max <= b.availability.active * a.availability.max
    && a.performance.cost <= b.performance.cost
    && AsNear(a.performance.locality, b.performance.locality)
  }

  /** Better in one respect by more than rounding can hide: one level of authority,
      a hundredth of the slots, of the success rate or of the cost limit, health or place. */
  predicate ClearlyBetter(a: Agent, b: Agent, r: Request)
    requires a.availability.max > 0 && b.availability.max > 0
  {
    || (a.profile.authorityCeiling < b.profile.authorityCeiling && a.profile.authorityCeiling - r.authority < 20)
    || (a.health.status != Degraded && b.health.status == Degraded)
    || Ratio(a.reliability.successes + 1, a.reliability.successes + a.reliability.failures + 2)
         >= Ratio(b.reliability.successes + 1, b.reliability.successes + b.reliability.failures + 2) + 0.01
    || Ratio(a.availability.active, a.availability.max) + 0.01 <= Ratio(b.availability.active, b.availability.max)
    || (r.maxCost.Some? && r.maxCost.value > 0.0 && a.performance.cost + 0.01 * r.maxCost.value <= b.performance.cost)
    || !AsNear(b.performance.locality, a.performance.locality)
  }

  lemma RoundIsNear(x: real)
    ensures x - 0.5 <= Round(x) as real <= x + 0.5
  {}

  lemma RoundScoreIsNear(x: real, y: real)
    ensures x - 0.00005 <= RoundScore(x) <= x + 0.00005
    ensures x <= y ==> RoundScore(x) <= RoundScore(y)
    ensures x + 0.0001 <= y ==> RoundScore(x) < RoundScore(y)
  {
    RoundIsNear(x * 10000.0);
    if x <= y { RoundIsMonotone(x * 10000.0, y * 10000.0); }
    if x + 0.0001 <= y {
      RoundIsMonotone(x * 10000.0 + 1.0, y * 10000.0);
      RoundOneMore(x * 10000.0);
    }
  }

  lemma RoundOneMore(x: real)
    ensures Round(x + 1.0) > Round(x)
  {}

  lemma RatioOrder(n: int, d: int, m: int, e: int)
    requires d > 0 && e > 0
    ensures n * e <= m * d <==> Ratio(n, d) <= Ratio(m, e)
  {
    var x, y := Ratio(n, d), Ratio(m, e);
    assert x * d as real == n as real && y * e as real == m as real;
    assert (n * e) as real == x * d as real * e as real && (m * d) as real == y * e as real * d as real;
    var p := d as real * e as real;
    assert p > 0.0 && (n * e) as real == x * p && (m * d) as real == y * p;
    if x <= y { assert x * p <= y * p; } else { assert x * p > y * p; }
  }

  lemma ScaleOrder(p: real, q: real, d: real)
    requires d > 0.0 && p * d <= q * d
    ensures p <= q
  {}

  lemma QuotientOrder(x: real, y: real, d: real)
    requires d > 0.0
    ensures x <= y ==> x / d <= y / d
    ensures x + 0.01 * d <= y ==> x / d + 0.01 <= y / d
  {
    var p, q := x / d, y / d;
    var t := p + 0.01;
    assert p * d == x && q * d == y && t * d == p * d + 0.01 * d;
    if x <= y { ScaleOrder(p, q, d); }
    if x + 0.01 * d <= y { ScaleOrder(t, q, d); }
  }

  lemma RateOrder(x: Reliability, y: Reliability)
    requires x.successes >= y.successes && x.failures <= y.failures
    ensures ReliabilityScore(x) >= ReliabilityScore(y)
  {
    var a, b, m, n := x.successes + 1, x.failures + 1, y.successes + 1, y.failures + 1;
    assert m * b <= a * b && a * b <= a * n;
    assert m * (a + b) == m * a + m * b && a * (m + n) == a * m + a * n;
    RatioOrder(m, m + n, a, a + b);
  }

  lemma CostOrder(a: Agent, b: Agent, r: Request)
    requires a.performance.cost <= b.performance.cost
    ensures CostScore(a, r) >= CostScore(b, r)
    ensures r.maxCost.Some? && r.maxCost.value > 0.0 && a.performance.cost + 0.01 * r.maxCost.value <= b.performance.cost
      ==> CostScore(a, r) >= CostScore(b, r) + 0.05
  {
    if r.maxCost.Some? && r.maxCost.value > 0.0 { QuotientOrder(a.performance.cost, b.performance.cost, r.maxCost.value); }
  }

  lemma LoadOrder(a: Agent, b: Agent)
    requires a.availability.max > 0 && b.availability.max > 0
    requires a.availability.active * b.availability.max <= b.availability.active * a.availability.max
    ensures LoadScore(a) >= LoadScore(b)
    ensures Ratio(a.availability.active, a.availability.max) + 0.01 <= Ratio(b.availability.active, b.availability.max)
      ==> LoadScore(a) >= LoadScore(b) + 0.05
  {
    RatioOrder(a.availability.active, a.availability.max, b.availability.active, b.availability.max);
  }

  /** How far apart the unrounded parts of two scores are, at the least. */
  lemma PartsFollowMerit(a: Agent, b: Agent, r: Request)
    requires a.availability.max > 0 && b.availability.max > 0 && NoWorse(a, b)
    ensures AuthorityScore(a, r) >= AuthorityScore(b, r) && LoadScore(a) >= LoadScore(b) && CostScore(a, r) >= CostScore(b, r)
    ensures ReliabilityScore(a.reliability) >= ReliabilityScore(b.reliability)
    ensures LocalityScore(a.performance.locality) >= LocalityScore(b.performance.locality)
    ensures ClearlyBetter(a, b, r) ==>
      || AuthorityScore(a, r) >= AuthorityScore(b, r) + 0.05
      || (a.health.status != Degraded && b.health.status == Degraded)
      || 15.0 * ReliabilityScore(a.reliability) >= 15.0 * ReliabilityScore(b.reliability) + 0.05
      || LoadScore(a) >= LoadScore(b) + 0.05
      || CostScore(a, r) >= CostScore(b, r) + 0.05
      || LocalityScore(a.performance.locality) >= LocalityScore(b.performance.locality) + 0.05
  {
    LoadOrder(a, b);
    RateOrder(a.reliability, b.reliability);
    CostOrder(a, b, r);
    hide LoadScore, CostScore;
  }

  /** An agent that is in no respect the worse choice never scores lower, and it
      scores higher as soon as it is clearly better in one. */
  lemma ScoreFollowsMerit(a: Agent, b: Agent, r: Request)
    requires a.availability.max > 0 && b.availability.max > 0 && NoWorse(a, b)
    ensures Score(a, r) >= Score(b, r)
    ensures ClearlyBetter(a, b, r) ==> Score(a, r) > Score(b, r)
  {
    hide Round, RoundScore, AuthorityScore, ReliabilityScore, LoadScore, CostScore, LocalityScore, Total, NoWorse, ClearlyBetter;
    PartsFollowMerit(a, b, r);
    HealthPart(a, b);
    TotalOfComponents(a, r);
    TotalOfComponents(b, r);
    RoundScoreIsNear(AuthorityScore(a, r), AuthorityScore(b, r));
    RoundScoreIsNear(AuthorityScore(b, r), AuthorityScore(a, r));
    RoundScoreIsNear(15.0 * ReliabilityScore(a.reliability), 15.0 * ReliabilityScore(b.reliability));
    RoundScoreIsNear(15.0 * ReliabilityScore(b.reliability), 15.0 * ReliabilityScore(a.reliability));
    RoundScoreIsNear(LoadScore(a), LoadScore(b));
    RoundScoreIsNear(LoadScore(b), LoadScore(a));
    RoundScoreIsNear(CostScore(a, r), CostScore(b, r));
    RoundScoreIsNear(CostScore(b, r), CostScore(a, r));
    RoundScoreIsNear(Total(Components(b, r)) / 90.0, Total(Components(a, r)) / 90.0);
  }

  lemma HealthPart(a: Agent, b: Agent)
    requires NoWorse(a, b)
    ensures RoundScore(HealthScore(a)) >= RoundScore(HealthScore(b))
    ensures a.health.status != Degraded && b.health.status == Degraded ==> RoundScore(HealthScore(a)) >= RoundScore(HealthScore(b)) + 0.05
  {}

  function Worth(l: Locality): int {
    match l case Local => 7 case Lan => 3 case Cloud => 0
  }

  /** How much each merit weighs, in ninetieths: half a point for each level of
      surplus authority, 7 for health, 15 for the whole success rate, 10 for all the
      slots, 5 for the whole cost limit, 7 and 3 for places nearer than the cloud. */
  lemma ScoreGap(a: Agent, b: Agent, r: Request)
    requires a.availability.max > 0 && b.availability.max > 0 && r.maxCost.Some? && r.maxCost.value > 0.0
    requires a.profile.authorityCeiling - r.authority <= 20 && b.profile.authorityCeiling - r.authority <= 20
    ensures var x, y := a.reliability, b.reliability;
      var gap := (b.profile.authorityCeiling - a.profile.authorityCeiling) as real / 2.0
        + (if a.health.status == Degraded then 0.0 else 7.0) - (if b.health.status == Degraded then 0.0 else 7.0)
        + 15.0 * (Ratio(x.successes + 1, x.successes + x.failures + 2) - Ratio(y.successes + 1, y.successes + y.failures + 2))
        + 10.0 * (Ratio(b.availability.active, b.availability.max) - Ratio(a.availability.active, a.availability.max))
        + 5.0 * (b.performance.cost / r.maxCost.value - a.performance.cost / r.maxCost.value)
        + (Worth(a.performance.locality) - Worth(b.performance.locality)) as real;
      -0.01 <= 90.0 * (Score(a, r) - Score(b, r)) - gap <= 0.01
  {
    hide Score;
    ScoreIsNearSum(a, r);
    ScoreIsNearSum(b, r);
  }

  lemma ScoreIsNearSum(a: Agent, r: Request)
    requires a.availability.max > 0
    ensures var sum := 25.0 + AuthorityScore(a, r) + HealthScore(a) + 15.0 * ReliabilityScore(a.reliability)
        + LoadScore(a) + CostScore(a, r) + LocalityScore(a.performance.locality);
      sum - 0.005 <= 90.0 * Score(a, r) <= sum + 0.005
  {
    hide Round, RoundScore, AuthorityScore, HealthScore, ReliabilityScore, LoadScore, CostScore, LocalityScore, Total;
    TotalOfComponents(a, r);
    RoundScoreIsNear(AuthorityScore(a, r), 0.0);
    RoundScoreIsNear(HealthScore(a), 0.0);
    RoundScoreIsNear(15.0 * ReliabilityScore(a.reliability), 0.0);
    RoundScoreIsNear(LoadScore(a), 0.0);
    RoundScoreIsNear(CostScore(a, r), 0.0);
    RoundScoreIsNear(Total(Components(a, r)) / 90.0, 0.0);
  }

  lemma SlotsExist(c: Checks, a: Agent)
    requires SoundAgent(c, a)
    ensures a.availability.max != 0
  {
    hide ValidProfile, ValidIdentity, ValidIdentifier, ValidText;
  }
}
