/** What the registry's commands mean for the records: for every version of every
    agent, for every reply, and for every agent that is granted or passed over. All
    of it is said over the fields of the records and of the commands. */
module RegistryMeaning {
  import opened Wrappers
  import opened RegistryTypes
  import opened RegistryStore
  import opened RegistryRules
  import opened RegistryService
  import opened RegistryHistory
  import opened Sorting
  import opened Text

  // Configurations

  /** Blank entries count for nothing, and case and outer blanks make no difference. */
  predicate Lists(values: seq<string>, key: string) {
    exists v :: v in values && Lower(Trim(v)) == key
  }

  ghost predicate SameEntries(kept: seq<string>, wanted: seq<string>) {
    forall key :: key != "" ==> (Lists(kept, key) <==> Lists(wanted, key))
  }

  ghost predicate SameCapability(kept: Capability, wanted: Capability) {
    kept.id == wanted.id && kept.version == wanted.version && SameEntries(kept.operations, wanted.operations)
  }

  ghost predicate SameCapabilities(kept: seq<Capability>, wanted: seq<Capability>) {
    && |kept| == |wanted|
    && (forall k :: k in kept ==> exists w :: w in wanted && SameCapability(k, w))
    && (forall w :: w in wanted ==> exists k :: k in kept && SameCapability(k, w))
  }

  /** The stored profile says what the wanted one says. */
  ghost predicate Configured(kept: Profile, wanted: Profile) {
    && kept.name == wanted.name && kept.agentType == wanted.agentType
    && kept.runtimeId == wanted.runtimeId && kept.runtimeType == wanted.runtimeType && kept.protocol == wanted.protocol
    && kept.authorityCeiling == wanted.authorityCeiling && kept.autonomyCeiling == wanted.autonomyCeiling
    && SameEntries(kept.tools, wanted.tools) && SameEntries(kept.data, wanted.data) && SameEntries(kept.folders, wanted.folders)
    && SameCapabilities(kept.capabilities, wanted.capabilities)
  }

  lemma NormalizedListsSame(values: seq<string>)
    ensures SameEntries(NormalizeUnique(values), values)
  {
    hide Trim, Sort;
    var first := FirstSpellings(values);
    FirstSpellingsMembers(values);
    SortPermutes(first, BY_FOLDED);
    forall key | key != "" ensures Lists(NormalizeUnique(values), key) <==> Lists(values, key) {
      KeyAmongMembers(key, first, NormalizeUnique(values));
      ListsIffAmong(NormalizeUnique(values), key);
      ListsIffAmong(values, key);
    }
  }

  lemma ListsIffAmong(values: seq<string>, key: string)
    ensures Lists(values, key) <==> KeyAmong(key, values)
  {
    hide Trim, Lower;
    if Lists(values, key) {
      var v :| v in values && Lower(Trim(v)) == key;
      var i :| 0 <= i < |values| && values[i] == v;
      assert FoldedKey(values[i]) == key;
    }
  }

  /** The lists of a stored profile are tidy: trimmed, in order of their keys, each key
      once; and its capabilities are in order of their IDs. */
  lemma NormalizedIsTidy(p: Profile, values: seq<string>)
    ensures var tidy := NormalizeUnique(values);
      && (forall v :: v in tidy ==> Trim(v) == v && v != "")
      && (forall i, j :: 0 <= i < j < |tidy| ==> LexLe(Lower(Trim(tidy[i])), Lower(Trim(tidy[j]))) && Lower(Trim(tidy[i])) != Lower(Trim(tidy[j])))
    ensures var caps := NormalizeProfile(p).capabilities;
      forall i, j :: 0 <= i < j < |caps| ==> LexLe(Lower(caps[i].id), Lower(caps[j].id))
  {
    hide NormalizeUnique, Sort, Trim;
    NormalizeUniqueKeepsFirstSpellings(values);
    var tidy := NormalizeUnique(values);
    forall v | v in tidy ensures Trim(v) == v && v != "" {
      var i :| 0 <= i < |values| && Trim(values[i]) == v && v != "";
      TrimIdempotent(values[i]);
    }
    forall i, j | 0 <= i < j < |tidy|
      ensures LexLe(Lower(Trim(tidy[i])), Lower(Trim(tidy[j]))) && Lower(Trim(tidy[i])) != Lower(Trim(tidy[j]))
    {
      assert BY_FOLDED(tidy[i], tidy[j]) && !BY_FOLDED(tidy[j], tidy[i]);
    }
    var ordered, caps := Sort(p.capabilities, BY_CAPABILITY), NormalizeProfile(p).capabilities;
    CapabilityOrder();
    SortIsSorted(p.capabilities, BY_CAPABILITY);
    forall i, j | 0 <= i < j < |caps| ensures LexLe(Lower(caps[i].id), Lower(caps[j].id)) { assert BY_CAPABILITY(ordered[i], ordered[j]); }
  }

  lemma CapabilityOrder()
    ensures TotalPreorder(BY_CAPABILITY)
  {
    hide Lower;
    forall a: Capability, b: Capability ensures BY_CAPABILITY(a, b) || BY_CAPABILITY(b, a) { LexTotal(Lower(a.id), Lower(b.id)); }
    forall a: Capability, b: Capability, d: Capability | BY_CAPABILITY(a, b) && BY_CAPABILITY(b, d) ensures BY_CAPABILITY(a, d) {
      LexTransitive(Lower(a.id), Lower(b.id), Lower(d.id));
    }
  }

  lemma NormalizedIsConfigured(p: Profile)
    ensures Configured(NormalizeProfile(p), p)
  {
    hide NormalizeUnique, SameEntries, Sort;
    NormalizedListsSame(p.tools);
    NormalizedListsSame(p.data);
    NormalizedListsSame(p.folders);
    var ordered, kept := Sort(p.capabilities, BY_CAPABILITY), NormalizeProfile(p).capabilities;
    SortPermutes(p.capabilities, BY_CAPABILITY);
    forall i | 0 <= i < |ordered| ensures SameCapability(kept[i], ordered[i]) { NormalizedListsSame(ordered[i].operations); }
    forall k | k in kept ensures exists w :: w in p.capabilities && SameCapability(k, w) {
      var i :| 0 <= i < |kept| && kept[i] == k;
      assert ordered[i] in ordered;
    }
    forall w | w in p.capabilities ensures exists k :: k in kept && SameCapability(k, w) {
      assert w in ordered;
      var i :| 0 <= i < |ordered| && ordered[i] == w;
      assert kept[i] in kept;
    }
    assert |ordered| == |p.capabilities| by { assert |multiset(ordered)| == |multiset(p.capabilities)|; }
  }

  // What one version takes over from the one before and from its command

  predicate SameIdentity(before: Agent, after: Agent) {
    && after.contractVersion == CONTRACT_VERSION && after.owner == before.owner && after.id == before.id
    && after.createdAt == before.createdAt && after.revision == before.revision + 1
  }

  /** A first version is what was offered, under trimmed names, with nothing enabled. */
  ghost predicate RegisteredAs(input: Agent, after: Agent, now: int) {
    && after.contractVersion == CONTRACT_VERSION && after.owner == Trim(input.owner) && after.id == Trim(input.id)
    && Configured(after.profile, input.profile.(name := Trim(input.profile.name)))
    && after.health == input.health && after.availability == input.availability
    && after.performance == input.performance && after.reliability == input.reliability
    && after.state == LifecycleState.Registered && after.revision == 1 && after.createdAt == now && after.updatedAt == now
  }

  /** An update takes configuration, health, performance and capacity from the
      replacement; lifecycle, evidence and slots in use stay the record's. */
  ghost predicate UpdatedTo(before: Agent, wanted: Agent, after: Agent, now: int) {
    && SameIdentity(before, after) && after.updatedAt == now
    && Configured(after.profile, wanted.profile)
    && after.health == wanted.health && after.performance == wanted.performance
    && after.availability.available == wanted.availability.available && after.availability.max == wanted.availability.max
    && after.availability.active == before.availability.active && after.state == before.state && after.reliability == before.reliability
  }

  predicate SameConfiguration(before: Agent, after: Agent) {
    && after.profile == before.profile && after.health == before.health && after.performance == before.performance
    && after.availability.available == before.availability.available && after.availability.max == before.availability.max
  }

  /** The edges of the lifecycle, by their target. */
  predicate MayEnter(to: LifecycleState, from: LifecycleState) {
    match to
    case Registered => false
    case Enabled => from == Registered || from == Draining || from == Disabled
    case Draining => from == LifecycleState.Enabled
    case Disabled => from != Disabled
    case Quarantined => from != Quarantined
  }

  /** Ready for work on that clock: healthy, or degraded where that is accepted, by
      a fresh check, with a slot left. */
  predicate Fit(a: Agent, now: int, degradedToo: bool) {
    && a.health.ready && a.availability.available && a.availability.active + 1 <= a.availability.max
    && a.health.checkedAt != 0 && 0 < a.health.freshFor && now - a.health.checkedAt <= a.health.freshFor
    && a.health.status != HealthUnknown && a.health.status != Unhealthy && (a.health.status == Degraded ==> degradedToo)
  }

  ghost predicate MovedTo(before: Agent, to: LifecycleState, after: Agent, checkedAt: int, now: int) {
    && SameIdentity(before, after) && SameConfiguration(before, after) && after.updatedAt == now
    && after.availability.active == before.availability.active && after.reliability == before.reliability
    && after.state == to && MayEnter(to, before.state)
    && (to == LifecycleState.Enabled ==> Fit(before, checkedAt, false))
  }

  /** One slot is given back and one outcome is counted. */
  predicate FinishedWith(before: Agent, o: Outcome, after: Agent, now: int) {
    var r, t := before.reliability, after.reliability;
    && SameIdentity(before, after) && SameConfiguration(before, after) && after.updatedAt == now && after.state == before.state
    && before.availability.active >= 1 && after.availability.active + 1 == before.availability.active
    && t.successes + t.failures == r.successes + r.failures + 1
    && (if o.success then t.failures == r.failures && t.consecutiveFailures == 0
        else t.successes == r.successes && t.consecutiveFailures == r.consecutiveFailures + 1)
    && o.latency >= 0 && t.lastOutcomeAt == (if o.recordedAt == 0 then now else o.recordedAt)
  }

  /** One slot is taken by an agent that fits the request. */
  ghost predicate ReservedFor(before: Agent, r: Request, after: Agent, now: int) {
    && SameIdentity(before, after) && SameConfiguration(before, after) && after.updatedAt == now
    && after.state == before.state && after.reliability == before.reliability
    && after.availability.active == before.availability.active + 1
    && Fits(before, r, now)
  }

  // Who fits a request

  predicate Before(v: Version, w: Version) {
    v.major < w.major || (v.major == w.major && (v.minor < w.minor || (v.minor == w.minor && v.patch < w.patch)))
  }

  predicate Spans(v: Version, low: Option<Version>, high: Option<Version>) {
    !(low.Some? && Before(v, low.value)) && !(high.Some? && Before(high.value, v))
  }

  /** A folder grants itself and what lies below it, and no sibling. */
  predicate Below(requested: string, allowed: string) {
    requested == allowed || (|allowed| < |requested| && requested[..|allowed|] == allowed && requested[|allowed|] == '/')
  }

  ghost predicate Declares(a: Agent, n: CapabilityNeed) {
    exists d :: d in a.profile.capabilities && Lower(d.id) == Lower(n.id) && Spans(d.version, n.min, n.max)
      && forall o :: o in n.operations ==> Lists(d.operations, Lower(Trim(o)))
  }

  ghost predicate Fits(a: Agent, r: Request, now: int) {
    && a.state == LifecycleState.Enabled && Fit(a, now, r.allowDegraded)
    && (|r.allowedTypes| > 0 ==> a.profile.agentType in r.allowedTypes)
    && r.authority <= a.profile.authorityCeiling && r.authority <= r.policyMaxAuthority
    && r.autonomy <= a.profile.autonomyCeiling && r.autonomy <= r.policyMaxAutonomy
    && (r.runtimeId != "" ==> Lower(a.profile.runtimeId) == Lower(r.runtimeId))
    && (r.runtimeType != "" ==> Lower(a.profile.runtimeType) == Lower(r.runtimeType))
    && Spans(a.profile.protocol, r.minProtocol, r.maxProtocol)
    && (forall n :: n in r.capabilities ==> Declares(a, n))
    && (forall x :: x in r.tools ==> Lists(a.profile.tools, Lower(Trim(x))))
    && (forall x :: x in r.data ==> Lists(a.profile.data, Lower(Trim(x))))
    && (forall x :: x in r.folders ==> exists f :: f in a.profile.folders && Below(NormalizeFolder(x), NormalizeFolder(f)))
    && (r.requireLocal ==> a.performance.locality == Local)
    && (r.maxCost.Some? ==> a.performance.cost <= r.maxCost.value)
  }

  lemma ContainsIffListed(available: seq<string>, required: seq<string>)
    ensures ContainsAll(available, required) <==> forall x :: x in required ==> Lists(available, Lower(Trim(x)))
  {
    hide Trim, Lower;
    if ContainsAll(available, required) {
      forall x | x in required ensures Lists(available, Lower(Trim(x))) {
        assert FoldedKey(x) in FoldedKeys(required);
        assert FoldedKey(x) in FoldedKeys(available);
      }
    }
    if forall x :: x in required ==> Lists(available, Lower(Trim(x))) {
      forall key | key in FoldedKeys(required) ensures key in FoldedKeys(available) {
        var x :| x in required && FoldedKey(x) == key;
        var v :| v in available && Lower(Trim(v)) == key;
        assert FoldedKey(v) == key;
      }
    }
  }

  lemma WithinIffBelow(requested: string, allowed: string)
    ensures Within(requested, allowed) <==> Below(requested, allowed)
  {
    if |allowed| < |requested| && requested[..|allowed|] == allowed && requested[|allowed|] == '/' {
      assert requested[..|allowed| + 1] == allowed + "/";
    }
  }

  lemma SpansIffInRange(v: Version, low: Option<Version>, high: Option<Version>)
    ensures Spans(v, low, high) <==> VersionInRange(v, low, high)
  {}

  lemma {:induction false} DeclaredIsListed(available: seq<Capability>, id: string)
    ensures Declared(available, id).Some? ==> Declared(available, id).value in available && Lower(Declared(available, id).value.id) == Lower(id)
    ensures Declared(available, id) == None ==> forall d :: d in available ==> Lower(d.id) != Lower(id)
  {
    hide Lower;
    if available != [] { DeclaredIsListed(available[..|available| - 1], id); }
  }

  lemma CapabilitiesAreDeclared(a: Agent, needs: seq<CapabilityNeed>)
    requires forall i, j :: 0 <= i < j < |a.profile.capabilities| ==>
      Lower(a.profile.capabilities[i].id) != Lower(a.profile.capabilities[j].id)
    ensures CapabilitiesMatch(a.profile.capabilities, needs) <==> forall n :: n in needs ==> Declares(a, n)
  {
    hide Lower, VersionInRange, Spans, ContainsAll, Lists;
    var caps := a.profile.capabilities;
    forall n | n in needs
      ensures Declares(a, n) <==>
        var found := Declared(caps, n.id);
        found.Some? && VersionInRange(found.value.version, n.min, n.max) && ContainsAll(found.value.operations, n.operations)
    {
      DeclaredIsListed(caps, n.id);
      forall d: Capability
        ensures Spans(d.version, n.min, n.max) <==> VersionInRange(d.version, n.min, n.max)
        ensures ContainsAll(d.operations, n.operations) <==> forall o :: o in n.operations ==> Lists(d.operations, Lower(Trim(o)))
      {
        SpansIffInRange(d.version, n.min, n.max);
        ContainsIffListed(d.operations, n.operations);
      }
      if Declares(a, n) {
        var d :| d in caps && Lower(d.id) == Lower(n.id) && Spans(d.version, n.min, n.max)
          && forall o :: o in n.operations ==> Lists(d.operations, Lower(Trim(o)));
        var i :| 0 <= i < |caps| && caps[i] == d;
        var j :| 0 <= j < |caps| && caps[j] == Declared(caps, n.id).value;
        assert i == j;
      }
    }
  }

  lemma CapabilitiesDiffer(c: Checks, a: Agent)
    requires SoundAgent(c, a)
    ensures a.availability.max >= 1
    ensures forall i, j :: 0 <= i < j < |a.profile.capabilities| ==>
      Lower(a.profile.capabilities[i].id) != Lower(a.profile.capabilities[j].id)
  {
    hide ValidIdentity, ValidIdentifier, ValidText, ValidAllowlist, Lower;
  }

  /** A sound agent is eligible if and only if it fits the request. */
  lemma EligibleIffFits(c: Checks, a: Agent, r: Request, now: int)
    requires SoundAgent(c, a)
    ensures Candidate(a, r, now) <==> Fits(a, r, now)
  {
    hide SoundAgent, CapabilitiesMatch, Declares, ContainsAll, Lists, Lower, Trim, NormalizeFolder, Within, Below, VersionInRange, Spans;
    CapabilitiesDiffer(c, a);
    CapabilitiesAreDeclared(a, r.capabilities);
    ContainsIffListed(a.profile.tools, r.tools);
    ContainsIffListed(a.profile.data, r.data);
    SpansIffInRange(a.profile.protocol, r.minProtocol, r.maxProtocol);
    forall x, f ensures Within(NormalizeFolder(x), NormalizeFolder(f)) <==> Below(NormalizeFolder(x), NormalizeFolder(f)) {
      WithinIffBelow(NormalizeFolder(x), NormalizeFolder(f));
    }
  }

  /** How a folder is spelled: case, back slashes, outer blanks and a last slash
      make no difference, and nothing else is lost. */
  lemma FolderSpelling(value: string, i: nat)
    ensures var t, n := Trim(value), NormalizeFolder(value);
      && |n| <= |t| <= |n| + 1
      && (|n| < |t| <==> t != "" && (t[|t| - 1] == '/' || t[|t| - 1] == '\\'))
      && (i < |n| ==> n[i] == if t[i] == '\\' then '/' else LowerChar(t[i]))
  {
    hide Trim;
  }

  // What the versions say

  ghost predicate VersionSays(before: Agent, v: Entry) {
    var now := v.call.now;
    match v.call.intent
    case Register(_) => false
    case Update(_, wanted, expected) => UpdatedTo(before, wanted, v.agent, now)
    case Transit(_, _, _, to, _) => MovedTo(before, to, v.agent, v.call.checkedAt, now)
    case Record(_, _, _, outcome) => FinishedWith(before, outcome, v.agent, now)
    case Assign(r) => ReservedFor(before, r, v.agent, now)
  }

  lemma FollowsSays(c: Checks, before: Agent, v: Entry)
    requires SoundAgent(c, before) && Follows(before, v)
    ensures VersionSays(before, v)
  {
    hide SoundAgent, Candidate, Fits, NormalizeProfile, Configured;
    SoundVersion(c, before);
    match v.call.intent {
      case Update(_, wanted, _) => NormalizedIsConfigured(wanted.profile);
      case Assign(r) => EligibleIffFits(c, before, r, v.call.now);
      case _ =>
    }
  }

  lemma SoundVersion(c: Checks, a: Agent)
    requires SoundAgent(c, a)
    ensures a.contractVersion == CONTRACT_VERSION
  {
    hide ValidProfile, ValidIdentity, ValidIdentifier, ValidText;
  }

  lemma RegistrationSays(input: Agent, now: int)
    ensures RegisteredAs(input, Registration(input, now), now)
  {
    hide NormalizeProfile, Configured, Trim;
    NormalizedIsConfigured(input.profile.(name := Trim(input.profile.name)));
  }

  ghost predicate HistorySays(h: seq<Entry>) {
    && |h| > 0 && h[0].call.intent.Register? && RegisteredAs(h[0].call.intent.input, h[0].agent, h[0].call.now)
    && forall i :: 0 < i < |h| ==> VersionSays(h[i - 1].agent, h[i])
  }

  /** In every run each agent's first version is what was registered, and each later
      one is what its command says of the one before, in every field. */
  lemma EveryVersionSays(c: Checks, calls: seq<Call>, k: Key)
    requires k in RunCalls(c, calls).history
    ensures HistorySays(RunCalls(c, calls).history[k])
  {
    hide SoundAgent, Follows, Registration, VersionSays, RegisteredAs, RunCalls, WellFormed, Counted, LedgersMatch;
    RunKeepsInvariant(c, calls);
    var h := RunCalls(c, calls).history[k];
    assert GoodHistory(c, k, h);
    RegistrationSays(h[0].call.intent.input, h[0].call.now);
    forall i | 0 < i < |h| ensures VersionSays(h[i - 1].agent, h[i]) { FollowsSays(c, h[i - 1].agent, h[i]); }
  }

  // What the replies say

  /** Which record a command is about, and that it was still the expected one. */
  ghost predicate About(s: Store, call: Call, k: Key) {
    match call.intent
    case Register(input) => k == Key(Trim(input.owner), Trim(input.id)) && k !in s.agents
    case Update(owner, wanted, expected) =>
      k == Key(Trim(owner), Trim(wanted.id)) && k in s.agents && s.agents[k].revision == expected
    case Transit(owner, id, expected, _, _) => k == Key(Trim(owner), Trim(id)) && k in s.agents && s.agents[k].revision == expected
    case Record(owner, assignment, expected, _) =>
      && AssignmentKey(owner, assignment) in s.assignments && AssignmentKey(owner, assignment) !in s.outcomes
      && k == Key(Trim(owner), Trim(s.assignments[AssignmentKey(owner, assignment)].agentId))
      && k in s.agents && s.agents[k].revision == expected
    case Assign(_) => false
  }

  /** A saved reply is the record that is now stored, nobody else's has changed, and
      it is what the command says of the expected version. */
  lemma SavedSays(c: Checks, s: Store, call: Call)
    requires WellFormed(c, s) && Exec(c, s, call).1.Saved?
    ensures var (t, reply) := Exec(c, s, call);
      var k := KeyOf(reply.agent);
      && About(s, call, k) && t.agents == s.agents[k := reply.agent]
      && (if call.intent.Register? then RegisteredAs(call.intent.input, reply.agent, call.now)
          else VersionSays(s.agents[k], Entry(reply.agent, call)))
  {
    hide SoundAgent, Follows, Registration, VersionSays, RegisteredAs, Legal, After, WellFormed, MoveEvent, NewAssignment, Exec, About;
    var e := ExecEffect(c, s, call);
    SavedIsAbout(c, s, call);
    SavedIsWritten(c, s, call, e);
    LegalRecord(c, s, call, e);
    FollowsKind(c, s, call, e);
    if e.Adds? { RegistrationSays(call.intent.input, call.now); }
    else {
      StoredIsSound(c, s, KeyOf(e.agent));
      FollowsSays(c, s.agents[KeyOf(e.agent)], Entry(e.agent, call));
    }
  }

  lemma StoredIsSound(c: Checks, s: Store, k: Key)
    requires WellFormed(c, s) && k in s.agents
    ensures SoundAgent(c, s.agents[k]) && KeyOf(s.agents[k]) == k
  {
    hide SoundAgent;
  }

  lemma SavedIsWritten(c: Checks, s: Store, call: Call, e: Effect)
    requires WellFormed(c, s) && Exec(c, s, call).1.Saved? && Legal(c, s, call, e) && Exec(c, s, call).0 == After(s, e)
    requires Written(s, Exec(c, s, call).1) == if e.Unchanged? then None else Some(KeyOf(e.agent))
    ensures !e.Unchanged? && KeyOf(e.agent) == KeyOf(Exec(c, s, call).1.agent)
    ensures Exec(c, s, call).0.agents == s.agents[KeyOf(e.agent) := e.agent] && e.agent == Exec(c, s, call).1.agent
  {
    hide Exec, WellFormed, After, Legal;
    LegalRecord(c, s, call, e);
    SavedIsStored(c, s, call);
  }

  lemma SavedIsStored(c: Checks, s: Store, call: Call)
    requires Exec(c, s, call).1.Saved?
    ensures var (t, reply) := Exec(c, s, call); KeyOf(reply.agent) in t.agents && t.agents[KeyOf(reply.agent)] == reply.agent
  {
    hide ReadIn, PrepareOn, ValidateAgent, Registration, ValidateRequest, BestPick, NewAssignment, Candidate, CommitIn;
    if !call.intent.Register? && !call.intent.Assign? {
      CommitStores(s, PrepareOn(c, s, ReadIn(c, s, call.intent).value, call).value, Expected(call.intent));
    }
  }

  lemma CommitStores(s: Store, commit: Commit, expected: nat)
    ensures var (t, r) := CommitIn(s, commit, expected);
      && (r.Ok? ==> r.value == commit.agent && KeyOf(r.value) in t.agents && t.agents[KeyOf(r.value)] == r.value)
      && (r.Ok? && commit.Close? ==> AssignmentKey(commit.result.owner, commit.result.assignment) !in s.outcomes)
  {}

  lemma PreparedKeepsKey(c: Checks, s: Store, current: Agent, call: Call)
    requires WellFormed(c, s) && !call.intent.Register? && !call.intent.Assign? && PrepareOn(c, s, current, call).Ok?
    ensures KeyOf(PrepareOn(c, s, current, call).value.agent) == KeyOf(current) && current.revision == Expected(call.intent)
    ensures call.intent.Record? ==>
      var commit, ak := PrepareOn(c, s, current, call).value, AssignmentKey(call.intent.owner, call.intent.assignment);
      commit.Close? && ak in s.assignments && AssignmentKey(commit.result.owner, commit.result.assignment) == ak
  {
    hide SoundAgent, ValidateAgent, NormalizeProfile, ValidIdentity, ValidText, AgentReady, TransitionAllowed, WithOutcome;
  }

  /** What a read finds is filed under the trimmed names. */
  lemma ReadFinds(c: Checks, s: Store, i: Intent)
    requires WellFormed(c, s) && !i.Register? && !i.Assign? && ReadIn(c, s, i).Ok?
    ensures var k := KeyOf(ReadIn(c, s, i).value);
      && k in s.agents && s.agents[k] == ReadIn(c, s, i).value
      && match i
         case Update(owner, wanted, _) => k == Key(Trim(owner), Trim(wanted.id))
         case Transit(owner, id, _, _, _) => k == Key(Trim(owner), Trim(id))
         case Record(owner, assignment, _, _) =>
           AssignmentKey(owner, assignment) in s.assignments
           && k == Key(Trim(owner), Trim(s.assignments[AssignmentKey(owner, assignment)].agentId))
  {
    hide SoundAgent, ValidIdentity, ValidIdentifier, Trim;
  }

  lemma SavedIsAbout(c: Checks, s: Store, call: Call)
    requires WellFormed(c, s) && Exec(c, s, call).1.Saved?
    ensures About(s, call, KeyOf(Exec(c, s, call).1.agent))
  {
    hide WellFormed, ReadIn, PrepareOn, CommitIn, ValidateAgent, NormalizeProfile, Trim, ValidateRequest, BestPick, NewAssignment, Candidate;
    if !call.intent.Register? && !call.intent.Assign? {
      var current := ReadIn(c, s, call.intent).value;
      ReadFinds(c, s, call.intent);
      PreparedKeepsKey(c, s, current, call);
      CommitStores(s, PrepareOn(c, s, current, call).value, Expected(call.intent));
    }
  }

  /** A transition of a properly named agent has exactly one answer: it is not found,
      not at the expected revision, without a valid reason, off the allowed edges or
      enabled while unfit, or it is saved; and only a saved one changes anything. */
  lemma TransitionAnswers(c: Checks, s: Store, call: Call)
    requires WellFormed(c, s) && call.intent.Transit?
    requires ValidIdentity(c, call.intent.owner) && ValidIdentifier(c, call.intent.id)
    ensures var i, (t, reply) := call.intent, Exec(c, s, call);
      var k := Key(Trim(i.owner), Trim(i.id));
      && (reply == Failed(NotFound) <==> k !in s.agents)
      && (reply == Failed(RevisionConflict) <==> k in s.agents && s.agents[k].revision != i.expected)
      && (reply == Failed(InvalidInput) <==> k in s.agents && s.agents[k].revision == i.expected && !ValidText(c, i.reason, true))
      && (reply.Saved? <==>
            && k in s.agents && s.agents[k].revision == i.expected && ValidText(c, i.reason, true)
            && MayEnter(i.to, s.agents[k].state) && (i.to == LifecycleState.Enabled ==> Fit(s.agents[k], call.checkedAt, false)))
      && (reply.Saved? || reply == Failed(NotFound) || reply == Failed(RevisionConflict) || reply == Failed(InvalidInput)
          || reply == Failed(InvalidTransition))
      && (!reply.Saved? ==> t == s)
  {
    hide SoundAgent, ValidIdentity, ValidIdentifier, ValidText, Trim;
  }

  /** An update of a properly named agent is refused as not found, as out of date or
      as invalid, and only a saved one changes anything. */
  lemma UpdateAnswers(c: Checks, s: Store, call: Call)
    requires WellFormed(c, s) && call.intent.Update?
    requires ValidIdentity(c, call.intent.owner) && ValidIdentifier(c, call.intent.replacement.id)
    ensures var i, (t, reply) := call.intent, Exec(c, s, call);
      var k := Key(Trim(i.owner), Trim(i.replacement.id));
      && (reply == Failed(NotFound) <==> k !in s.agents)
      && (reply == Failed(RevisionConflict) <==> k in s.agents && s.agents[k].revision != i.expected)
      && (k in s.agents && s.agents[k].revision == i.expected ==> reply.Saved? || reply == Failed(InvalidInput))
      && (!reply.Saved? ==> t == s)
  {
    hide SoundAgent, ValidIdentity, ValidIdentifier, ValidateAgent, NormalizeProfile, Trim;
  }

  // Validation

  predicate NamedWell(c: Checks, value: string) {
    var t := Trim(value);
    && 1 <= |t| <= 256 && AlphaNumeric(t[0]) && !c.secret(value)
    && forall ch :: ch in t ==> AlphaNumeric(ch) || ch == '.' || ch == '_' || ch == ':' || ch == '/' || ch == '@' || ch == '-'
  }

  predicate ToldWell(c: Checks, text: string) {
    |Trim(text)| <= 2048 && !c.secret(Trim(text))
  }

  /** Not blank, of bounded length, without secrets, and no entry twice. */
  predicate ListedWell(c: Checks, values: seq<string>, paths: bool) {
    && (forall v :: v in values ==> !Blank(v) && ToldWell(c, v) && !c.credentials(Trim(v)))
    && (forall i, j :: 0 <= i < j < |values| ==> Spelt(values[i], paths) != Spelt(values[j], paths))
  }

  function Spelt(value: string, paths: bool): string {
    if paths then Slashed(Lower(Trim(value))) else Lower(Trim(value))
  }

  predicate WellKept(c: Checks, a: Agent) {
    && a.contractVersion == 1 && a.revision >= 1
    && NamedWell(c, a.id) && !Blank(a.owner) && |Trim(a.owner)| <= 256 && !c.secret(Trim(a.owner))
    && !Blank(a.profile.name) && ToldWell(c, a.profile.name) && NamedWell(c, a.profile.runtimeId) && NamedWell(c, a.profile.runtimeType)
    && 0 <= a.profile.authorityCeiling <= 10 && 0 <= a.profile.autonomyCeiling <= 10
    && |a.profile.capabilities| > 0
    && (forall d :: d in a.profile.capabilities ==> NamedWell(c, d.id) && ListedWell(c, d.operations, false))
    && (forall i, j :: 0 <= i < j < |a.profile.capabilities| ==> Lower(a.profile.capabilities[i].id) != Lower(a.profile.capabilities[j].id))
    && ListedWell(c, a.profile.tools, false) && ListedWell(c, a.profile.data, false) && ListedWell(c, a.profile.folders, true)
    && ToldWell(c, a.health.reason) && a.health.freshFor >= 0
    && 1 <= a.availability.max && 0 <= a.availability.active <= a.availability.max
    && a.performance.cost >= 0.0 && a.performance.p95LatencyMs >= 0
    && a.reliability.meanLatencyMs >= 0.0 && a.reliability.consecutiveFailures <= a.reliability.failures
  }

  lemma NamedWellIff(c: Checks, value: string)
    ensures ValidIdentifier(c, value) <==> NamedWell(c, value)
  {
    hide Trim, AlphaNumeric;
    var t := Trim(value);
    if ValidIdentifier(c, value) {
      forall ch | ch in t ensures AlphaNumeric(ch) || ch == '.' || ch == '_' || ch == ':' || ch == '/' || ch == '@' || ch == '-' {
        var i :| 0 <= i < |t| && t[i] == ch;
        if i > 0 { assert AlphaNumeric(t[i]) || t[i] in "._:/@-"; }
      }
    }
    if NamedWell(c, value) {
      forall i | 1 <= i < |t| ensures AlphaNumeric(t[i]) || t[i] in "._:/@-" { assert t[i] in t; }
    }
  }

  lemma ListedWellIff(c: Checks, values: seq<string>, paths: bool)
    ensures ValidAllowlist(c, values, paths) <==> ListedWell(c, values, paths)
  {
    hide Trim, Blank, Lower, Slashed;
    forall v: string ensures Trim(v) == "" <==> Blank(v) { TrimIdempotent(v); }
    if ListedWell(c, values, paths) {
      forall i, j | 0 <= i < j < |values|
        ensures if paths then Slashed(FoldedKey(values[i])) != Slashed(FoldedKey(values[j])) else FoldedKey(values[i]) != FoldedKey(values[j])
      {
        assert Spelt(values[i], paths) != Spelt(values[j], paths);
      }
    }
  }

  lemma SoundIffWellKept(c: Checks, a: Agent)
    ensures SoundAgent(c, a) <==> WellKept(c, a)
  {
    hide ValidAllowlist, ValidIdentifier, NamedWell, ListedWell, Trim, Blank, Lower;
    NamedWellIff(c, a.id);
    NamedWellIff(c, a.profile.runtimeId);
    NamedWellIff(c, a.profile.runtimeType);
    TrimIdempotent(a.owner);
    TrimIdempotent(a.profile.name);
    ListedWellIff(c, a.profile.tools, false);
    ListedWellIff(c, a.profile.data, false);
    ListedWellIff(c, a.profile.folders, true);
    forall d: Capability
      ensures ValidIdentifier(c, d.id) <==> NamedWell(c, d.id)
      ensures ValidAllowlist(c, d.operations, false) <==> ListedWell(c, d.operations, false)
    {
      NamedWellIff(c, d.id);
      ListedWellIff(c, d.operations, false);
    }
  }

  /** A record is accepted if and only if it keeps the limits of the contract, none of
      its texts is a secret, and its times are set, in order and not in the future. */
  lemma AgentAcceptedIff(c: Checks, a: Agent, now: int)
    ensures ValidateAgent(c, a, now) <==>
      WellKept(c, a) && a.createdAt != 0 && a.updatedAt != 0 && a.createdAt <= a.updatedAt <= now + 60_000_000_000
  {
    hide SoundAgent, WellKept;
    SoundIffWellKept(c, a);
  }

  predicate Ordered(low: Option<Version>, high: Option<Version>) {
    low.Some? && high.Some? ==> !Before(high.value, low.value)
  }

  /** A request is accepted if and only if it is owned and named, asks for capabilities
      each once, within ordered versions, and stays within the ceilings of its policy. */
  lemma RequestAcceptedIff(c: Checks, r: Request)
    ensures ValidateRequest(c, r) <==>
      && !Blank(r.owner) && |Trim(r.owner)| <= 256 && !c.secret(Trim(r.owner)) && NamedWell(c, r.taskId)
      && |r.capabilities| > 0
      && (forall n :: n in r.capabilities ==> NamedWell(c, n.id) && Ordered(n.min, n.max) && ListedWell(c, n.operations, false))
      && (forall i, j :: 0 <= i < j < |r.capabilities| ==> Lower(r.capabilities[i].id) != Lower(r.capabilities[j].id))
      && (r.runtimeId == "" || NamedWell(c, r.runtimeId)) && (r.runtimeType == "" || NamedWell(c, r.runtimeType))
      && Ordered(r.minProtocol, r.maxProtocol)
      && 0 <= r.authority <= r.policyMaxAuthority <= 10 && 0 <= r.autonomy <= r.policyMaxAutonomy <= 10
      && (r.maxCost.Some? ==> r.maxCost.value >= 0.0)
      && ListedWell(c, r.tools, false) && ListedWell(c, r.data, false) && ListedWell(c, r.folders, true)
  {
    hide ValidAllowlist, ValidIdentifier, NamedWell, ListedWell, Trim, Blank, Lower;
    TrimIdempotent(r.owner);
    NamedWellIff(c, r.taskId);
    NamedWellIff(c, r.runtimeId);
    NamedWellIff(c, r.runtimeType);
    ListedWellIff(c, r.tools, false);
    ListedWellIff(c, r.data, false);
    ListedWellIff(c, r.folders, true);
    forall n: CapabilityNeed
      ensures ValidIdentifier(c, n.id) <==> NamedWell(c, n.id)
      ensures ValidRange(n.min, n.max) <==> Ordered(n.min, n.max)
      ensures ValidAllowlist(c, n.operations, false) <==> ListedWell(c, n.operations, false)
    {
      NamedWellIff(c, n.id);
      ListedWellIff(c, n.operations, false);
    }
  }

  /** In every run every stored version keeps the limits of the contract, and no text
      of its configuration is a secret. */
  lemma EveryVersionIsWellKept(c: Checks, calls: seq<Call>, k: Key, i: nat)
    requires k in RunCalls(c, calls).history && i < |RunCalls(c, calls).history[k]|
    ensures WellKept(c, RunCalls(c, calls).history[k][i].agent)
  {
    hide SoundAgent, Follows, Registration, RunCalls, WellFormed, Counted, LedgersMatch, WellKept;
    RunKeepsInvariant(c, calls);
    assert GoodHistory(c, k, RunCalls(c, calls).history[k]);
    SoundIffWellKept(c, RunCalls(c, calls).history[k][i].agent);
  }

  /** What was granted is what was asked for, of that agent as it was then. */
  predicate GrantOf(x: Assignment, r: Request, a: Agent, now: int) {
    && x.id == r && x.owner == r.owner && x.taskId == r.taskId && x.agentId == a.id && x.agentRevision == a.revision
    && x.authority == r.authority && x.autonomy == r.autonomy && x.assignedAt == now
  }

  /** The explanation names every part of the score, and its parts add up to it: the
      merits of ScoreGap, each under its own name. */
  lemma ExplanationAddsUp(r: Request, a: Agent, now: int)
    requires a.availability.max != 0
    ensures var x := NewAssignment(r, a, now);
      && |x.components| == 7
      && (forall i :: 0 <= i < 7 ==> x.components[i].name == ["capability", "authority", "health", "reliability", "load", "cost", "locality"][i])
      && var sum := x.components[0].score + x.components[1].score + x.components[2].score + x.components[3].score
           + x.components[4].score + x.components[5].score + x.components[6].score;
         sum - 0.009 <= 90.0 * x.score <= sum + 0.009
    ensures var x, e := NewAssignment(r, a, now).components, a.reliability;
      && x[0].score == 25.0 && x[2].score == (if a.health.status == Degraded then 8.0 else 15.0)
      && x[6].score == (Worth(a.performance.locality) + 3) as real
      && Near(x[3].score, 15.0 * Ratio(e.successes + 1, e.successes + e.failures + 2))
      && (a.availability.max > 0 ==> Near(x[4].score, 10.0 - 10.0 * Ratio(a.availability.active, a.availability.max)))
      && (a.profile.authorityCeiling - r.authority <= 20 ==>
            Near(x[1].score, 10.0 - (a.profile.authorityCeiling - r.authority) as real / 2.0))
      && (r.maxCost.Some? && r.maxCost.value > 0.0 ==> Near(x[5].score, 5.0 - 5.0 * (a.performance.cost / r.maxCost.value)))
  {
    PartsAreNear(r, a);
    hide Round, RoundScore, AuthorityScore, HealthScore, ReliabilityScore, LoadScore, CostScore, LocalityScore, RegistryRules.Total;
    TotalOfComponents(a, r);
    RoundScoreIsNear(RegistryRules.Total(Components(a, r)) / 90.0, 0.0);
    RoundScoreIsNear(Score(a, r), 0.0);
  }

  predicate Near(x: real, y: real) {
    y - 0.0001 <= x <= y + 0.0001
  }

  lemma PartsAreNear(r: Request, a: Agent)
    requires a.availability.max != 0
    ensures var x, e := Components(a, r), a.reliability;
      && x[0].score == 25.0 && x[2].score == (if a.health.status == Degraded then 8.0 else 15.0)
      && x[6].score == (Worth(a.performance.locality) + 3) as real
      && Near(x[3].score, 15.0 * Ratio(e.successes + 1, e.successes + e.failures + 2))
      && (a.availability.max > 0 ==> Near(x[4].score, 10.0 - 10.0 * Ratio(a.availability.active, a.availability.max)))
      && (a.profile.authorityCeiling - r.authority <= 20 ==>
            Near(x[1].score, 10.0 - (a.profile.authorityCeiling - r.authority) as real / 2.0))
      && (r.maxCost.Some? && r.maxCost.value > 0.0 ==> Near(x[5].score, 5.0 - 5.0 * (a.performance.cost / r.maxCost.value)))
  {
    RoundScoreIsNear(AuthorityScore(a, r), 0.0);
    assert RoundScore(HealthScore(a)) == HealthScore(a);
    hide Round, RoundScore;
    RoundScoreIsNear(15.0 * ReliabilityScore(a.reliability), 0.0);
    RoundScoreIsNear(LoadScore(a), 0.0);
    RoundScoreIsNear(CostScore(a, r), 0.0);
  }

  /** A valid request without an assignment is told that nobody is eligible if and
      only if nobody of its owner fits it; otherwise it is granted an agent that fits
      and that no other one outclasses, of which one slot is taken. */
  lemma AssignAnswers(c: Checks, s: Store, r: Request, now: int)
    requires WellFormed(c, s) && ValidateRequest(c, r) && AssignmentKey(r.owner, r) !in s.assignments
    ensures var (t, reply) := AssignWhole(c, s, r, now);
      && (reply == Failed(NoEligibleAgent) <==> forall k :: k in s.agents && k.owner == r.owner ==> !Fits(s.agents[k], r, now))
      && (reply != Failed(NoEligibleAgent) ==>
            exists k :: k in s.agents && k.owner == r.owner && Fits(s.agents[k], r, now) && GrantMade(s, t, reply, k, r, now))
  {
    hide Fits, Candidate, SoundAgent, WellFormed, BestPick, ValidateRequest, NewAssignment, BestChoice, Outclasses;
    forall k | k in s.agents && k.owner == r.owner ensures Candidate(s.agents[k], r, now) <==> Fits(s.agents[k], r, now) {
      StoredIsSound(c, s, k);
      EligibleIffFits(c, s.agents[k], r, now);
    }
    BestPickIff(s, r, now);
    var pick := BestPick(s, r, now);
    if pick.Some? {
      KeysAreMatched(c, s);
      var k := Key(r.owner, pick.value.id);
      PickFits(s, r, now, pick.value);
      forall o | o in s.agents && o.owner == r.owner && Candidate(s.agents[o], r, now) ensures !Outclasses(s.agents[o], s.agents[k], r) {
        BestIsNotOutclassed(s, r, now, pick.value, o);
      }
      CandidateHasSlots(s.agents[k], r, now);
      CandidateHasRoom(s.agents[k], r, now);
      NewIsGrantOf(r, s.agents[k], now);
      assert GrantMade(s, AssignWhole(c, s, r, now).0, AssignWhole(c, s, r, now).1, k, r, now);
    }
  }

  ghost predicate GrantMade(s: Store, t: Store, reply: Reply, k: Key, r: Request, now: int)
    requires k in s.agents
  {
    && reply.Granted? && GrantOf(reply.assignment, r, s.agents[k], now)
    && t.assignments == s.assignments[AssignmentKey(r.owner, r) := reply.assignment]
    && k in t.agents && t.agents == s.agents[k := t.agents[k]]
    && t.agents[k].availability.active == s.agents[k].availability.active + 1
    && forall o :: o in s.agents && o.owner == r.owner && Fits(s.agents[o], r, now) ==> !Outclasses(s.agents[o], s.agents[k], r)
  }

  lemma PickFits(s: Store, r: Request, now: int, pick: Choice)
    requires KeysMatch(s) && BestChoice(s, r, now, pick)
    ensures var k := Key(r.owner, pick.id); k in s.agents && Candidate(s.agents[k], r, now) && KeyOf(s.agents[k]) == k
  {
    hide Candidate, Beats;
  }

  lemma KeysAreMatched(c: Checks, s: Store)
    requires WellFormed(c, s)
    ensures KeysMatch(s)
  {
    hide SoundAgent;
  }

  lemma NewIsGrantOf(r: Request, a: Agent, now: int)
    requires a.availability.max != 0
    ensures GrantOf(NewAssignment(r, a, now), r, a, now)
  {
    hide Components, Score;
  }
}
