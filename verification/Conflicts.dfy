/** Conflict detection over delegations and decision messages: what is reported,
    and why the report does not depend on the order of the inputs. */
module Conflicts {
  import opened Sorting
  import opened Text
  import opened Delegation

  datatype Kind = ResourceContention | ContradictoryDecision
  datatype Severity = Medium | High

  /** A message as the detector sees it; data stands for the decoded JSON value. */
  datatype Message = Message(
    id: string, decision: bool, correlationId: string, senderId: string,
    schema: string, subject: string, data: string)

  datatype Conflict = Conflict(
    id: string, correlationId: string, kind: Kind, severity: Severity, subject: string,
    participantIds: seq<string>, messageIds: seq<string>, delegationIds: seq<string>, detectedAt: int)

  function KindName(kind: Kind): string {
    match kind
    case ResourceContention => "resource_contention"
    case ContradictoryDecision => "contradictory_decision"
  }

  /** The text the conflict ID is computed from. */
  function Name(correlationId: string, kind: Kind, subject: string,
                participants: seq<string>, messages: seq<string>, delegations: seq<string>): string {
    correlationId + "|" + KindName(kind) + "|" + subject + "|" + Join(participants, ",")
    + "|" + Join(messages, ",") + "|" + Join(delegations, ",")
  }

  /** uuid5 is the name-based UUID of a text; distinct texts are taken to get distinct UUIDs. */
  type UuidOf = string -> string

  ghost predicate Injective(uuid5: UuidOf) {
    forall s, t :: uuid5(s) == uuid5(t) ==> s == t
  }

  function NewConflict(uuid5: UuidOf, correlationId: string, kind: Kind, severity: Severity, subject: string,
                       participants: seq<string>, messages: seq<string>, delegations: seq<string>, now: int): Conflict {
    var p, m, d := CanonicalStrings(participants), CanonicalStrings(messages), CanonicalStrings(delegations);
    Conflict(uuid5(Name(correlationId, kind, subject, p, m, d)), correlationId, kind, severity, subject, p, m, d, now)
  }

  // What counts as a conflict

  predicate ClaimsConflict(a: ResourceClaim, b: ResourceClaim) {
    !(a.access == Read && b.access == Read) && (a.exclusive || b.exclusive || (a.access == Write && b.access == Write))
  }

  predicate Contend(l: Envelope, r: Envelope) {
    && !Terminal(l.status) && !Terminal(r.status)
    && l.correlationId == r.correlationId
    && NormalizeID(l.delegate.id) != NormalizeID(r.delegate.id)
    && l.createdAt < r.dueAt && r.createdAt < l.dueAt
  }

  predicate Clash(l: Envelope, r: Envelope, a: ResourceClaim, b: ResourceClaim) {
    Contend(l, r) && a in l.resourceClaims && b in r.resourceClaims
    && NormalizeID(a.resource) == NormalizeID(b.resource) && ClaimsConflict(a, b)
  }

  function ClashSeverity(a: ResourceClaim, b: ResourceClaim): Severity {
    if a.exclusive && b.exclusive && a.access == Write && b.access == Write then High else Medium
  }

  function ResourceConflict(uuid5: UuidOf, l: Envelope, r: Envelope, a: ResourceClaim, b: ResourceClaim, now: int): Conflict {
    NewConflict(uuid5, l.correlationId, ResourceContention, ClashSeverity(a, b), NormalizeID(a.resource),
                [l.delegate.id, r.delegate.id], [], [l.id, r.id], now)
  }

  datatype DecisionDigest = DecisionDigest(schema: string, subject: string, data: string)

  function DigestOf(m: Message): DecisionDigest {
    DecisionDigest(Trim(m.schema), NormalizeText(m.subject), m.data)
  }

  predicate SameQuestion(m: Message, n: Message) {
    m.decision && n.decision && m.correlationId == n.correlationId && NormalizeText(m.subject) == NormalizeText(n.subject)
  }

  predicate Contradict(m: Message, n: Message) {
    SameQuestion(m, n) && NormalizeID(m.senderId) != NormalizeID(n.senderId) && DigestOf(m) != DigestOf(n)
  }

  function DecisionConflict(uuid5: UuidOf, m: Message, n: Message, now: int): Conflict {
    NewConflict(uuid5, m.correlationId, ContradictoryDecision, High, NormalizeText(m.subject),
                [m.senderId, n.senderId], [m.id, n.id], [], now)
  }

  ghost predicate FromDelegations(uuid5: UuidOf, ds: seq<Envelope>, now: int, c: Conflict) {
    exists l, r, a, b :: l in ds && r in ds && Clash(l, r, a, b) && c == ResourceConflict(uuid5, l, r, a, b, now)
  }

  ghost predicate FromMessages(uuid5: UuidOf, ms: seq<Message>, now: int, c: Conflict) {
    exists m, n :: m in ms && n in ms && Contradict(m, n) && c == DecisionConflict(uuid5, m, n, now)
  }

  // The order within a pair does not matter

  lemma PairIsUnordered(x: string, y: string)
    ensures CanonicalStrings([x, y]) == CanonicalStrings([y, x])
  {
    assert NonBlankTexts([x, y]) == NonBlankTexts([y, x]);
    CanonicalStringsEqualIffSameTexts([x, y], [y, x]);
  }

  lemma ResourceConflictIsSymmetric(uuid5: UuidOf, l: Envelope, r: Envelope, a: ResourceClaim, b: ResourceClaim, now: int)
    requires Clash(l, r, a, b)
    ensures Clash(r, l, b, a)
    ensures ResourceConflict(uuid5, l, r, a, b, now) == ResourceConflict(uuid5, r, l, b, a, now)
  {
    PairIsUnordered(l.delegate.id, r.delegate.id);
    PairIsUnordered(l.id, r.id);
    hide CanonicalStrings, NormalizeID, Name;
  }

  lemma DecisionConflictIsSymmetric(uuid5: UuidOf, m: Message, n: Message, now: int)
    requires Contradict(m, n)
    ensures Contradict(n, m)
    ensures DecisionConflict(uuid5, m, n, now) == DecisionConflict(uuid5, n, m, now)
  {
    PairIsUnordered(m.senderId, n.senderId);
    PairIsUnordered(m.id, n.id);
    hide CanonicalStrings, NormalizeID, NormalizeText, Name, Trim;
  }

  // Reading a conflict's name backwards

  lemma {:induction false} LastSeparatorSplits(a: string, x: string, b: string, y: string, c: char)
    requires c !in x && c !in y && a + [c] + x == b + [c] + y
    ensures a == b && x == y
  {
    var s, t := a + [c] + x, b + [c] + y;
    assert x != "" ==> x[|x| - 1] in x && s[|s| - 1] == x[|x| - 1];
    assert y != "" ==> y[|y| - 1] in y && t[|t| - 1] == y[|y| - 1];
    if x != "" && y != "" {
      assert s[..|s| - 1] == a + [c] + x[..|x| - 1];
      assert t[..|t| - 1] == b + [c] + y[..|y| - 1];
      LastSeparatorSplits(a, x[..|x| - 1], b, y[..|y| - 1], c);
      assert x == x[..|x| - 1] + [x[|x| - 1]] && y == y[..|y| - 1] + [y[|y| - 1]];
    } else {
      assert x == "" ==> s[|s| - 1] == c;
      assert y == "" ==> t[|t| - 1] == c;
      assert s[..|s| - 1] == a && t[..|t| - 1] == b;
    }
  }

  lemma CancelAround(a: string, s: string, t: string, b: string)
    requires a + s + b == a + t + b
    ensures s == t
  {
    assert |s| == |t|;
    assert s == (a + s + b)[|a|..|a| + |s|];
    assert t == (a + t + b)[|a|..|a| + |t|];
  }

  /** An identifier that survives being joined: not blank, no comma, no bar. */
  predicate PlainId(id: string) {
    !Blank(id) && ',' !in id && '|' !in id
  }

  lemma {:induction false} FieldsChars(s: string, c: char)
    requires c !in s
    ensures forall w :: w in Fields(s) ==> c !in w
    decreases |s|
  {
    if s != "" {
      if IsBlank(s[0]) { FieldsChars(s[1..], c); } else { FieldsChars(s[|Word(s)|..], c); }
    }
  }

  lemma {:induction false} JoinChars(words: seq<string>, separator: string, c: char)
    requires c !in separator && forall w :: w in words ==> c !in w
    ensures c !in Join(words, separator)
  {
    if |words| > 1 { JoinChars(words[1..], separator, c); }
  }

  lemma NormalizeTextChars(s: string, c: char)
    requires c !in s && c != ' '
    ensures c !in NormalizeText(s)
  {
    FieldsTrim(s);
    FieldsChars(s, c);
    JoinChars(Fields(s), " ", c);
  }

  lemma SortPair(p: string, q: string)
    ensures Sort([p, q], LEX) == if LEX(p, q) then [p, q] else [q, p]
  {
    assert [p, q][1..] == [q] && [q][1..] == [];
    assert Sort([q], LEX) == [q];
    assert Insert(p, [q], LEX) == if LEX(p, q) then [p, q] else [q] + Insert(p, [], LEX);
  }

  /** Two different identifiers make a canonical list of two. */
  lemma CanonicalPair(x: string, y: string) returns (s: string, t: string)
    requires PlainId(x) && PlainId(y) && NormalizeText(x) != NormalizeText(y)
    ensures CanonicalStrings([x, y]) == [s, t]
    ensures {s, t} == {NormalizeText(x), NormalizeText(y)}
    ensures ',' !in s && ',' !in t && '|' !in s && '|' !in t
  {
    NormalizeTextChars(x, ','); NormalizeTextChars(y, ',');
    NormalizeTextChars(x, '|'); NormalizeTextChars(y, '|');
    NormalizeTextEmptyIffBlank(x); NormalizeTextEmptyIffBlank(y);
    hide NormalizeText, LexLe;
    var p, q := NormalizeText(x), NormalizeText(y);
    assert [x, y][..1] == [x] && [x][..0] == [];
    assert Distinct([x]) == [p];
    assert Distinct([x, y]) == [p, q];
    SortPair(p, q);
    if LEX(p, q) { s, t := p, q; } else { s, t := q, p; }
  }

  /** The joined pair tells the two identifiers apart from any other two. */
  lemma JoinedPairIdentifies(x: string, y: string, x': string, y': string)
    requires PlainId(x) && PlainId(y) && NormalizeText(x) != NormalizeText(y)
    requires PlainId(x') && PlainId(y') && NormalizeText(x') != NormalizeText(y')
    requires Join(CanonicalStrings([x, y]), ",") == Join(CanonicalStrings([x', y']), ",")
    ensures {NormalizeText(x), NormalizeText(y)} == {NormalizeText(x'), NormalizeText(y')}
    ensures CanonicalStrings([x, y]) == CanonicalStrings([x', y'])
  {
    hide NormalizeText, CanonicalStrings, PlainId;
    var s, t := CanonicalPair(x, y);
    var s', t' := CanonicalPair(x', y');
    assert Join([s, t], ",") == s + [','] + t;
    assert Join([s', t'], ",") == s' + [','] + t';
    LastSeparatorSplits(s, t, s', t', ',');
  }

  lemma JoinedPairShape(x: string, y: string)
    requires PlainId(x) && PlainId(y) && NormalizeText(x) != NormalizeText(y)
    ensures Join(CanonicalStrings([x, y]), ",") != "" && '|' !in Join(CanonicalStrings([x, y]), ",")
  {
    hide NormalizeText, CanonicalStrings, PlainId;
    var s, t := CanonicalPair(x, y);
    assert Join([s, t], ",") == s + "," + t;
  }

  // Inputs whose identifiers identify

  /** Identifiers are plain and name one delegation or message each; no delegation
      claims a resource twice. */
  ghost predicate WellIdentified(ms: seq<Message>, ds: seq<Envelope>) {
    && (forall d :: d in ds ==> PlainId(d.id) && ValidClaims(d.resourceClaims))
    && (forall m :: m in ms ==> PlainId(m.id))
    && (forall d, e :: d in ds && e in ds && NormalizeText(d.id) == NormalizeText(e.id) ==> d == e)
    && (forall m, n :: m in ms && n in ms && NormalizeText(m.id) == NormalizeText(n.id) ==> m == n)
  }

  /** Written with hexadecimal digits and hyphens only, as canonical UUIDs are. */
  predicate HexText(s: string) {
    s != "" && forall i :: 0 <= i < |s| ==> '0' <= s[i] <= '9' || 'a' <= s[i] <= 'f' || 'A' <= s[i] <= 'F' || s[i] == '-'
  }

  lemma {:induction false} TrimDropsBlanks(s: string, c: char)
    requires c in s && !IsBlank(c)
    ensures c in Trim(s)
  {
    LeftDropsBlanks(s, c);
    RightDropsBlanks(TrimLeft(s), c);
  }

  lemma {:induction false} LeftDropsBlanks(s: string, c: char)
    requires c in s && !IsBlank(c)
    ensures c in TrimLeft(s)
  {
    assert s == [s[0]] + s[1..];
    if IsBlank(s[0]) { LeftDropsBlanks(s[1..], c); }
  }

  lemma {:induction false} RightDropsBlanks(s: string, c: char)
    requires c in s && !IsBlank(c)
    ensures c in TrimRight(s)
  {
    var n := |s| - 1;
    assert s == s[..n] + [s[n]];
    if IsBlank(s[n]) { RightDropsBlanks(s[..n], c); }
  }

  /** Validation gives plain identifiers and distinct claims wherever the library
      accepts only canonical UUID text; it also accepts text in any brackets, whose
      outer characters it does not look at. */
  lemma ValidatedIsPlain(scan: Scanner, p: Policy, d: Envelope, now: int)
    requires forall s :: scan.isUuid(s) ==> HexText(s)
    requires ValidDelegation(scan, p, d, now)
    ensures PlainId(d.id) && ValidClaims(d.resourceClaims)
  {
    hide NormalizeText, NormalizeID, CanonicalStrings, Trim, HasSecret;
    assert HexText(Trim(d.id));
    TrimIdempotent(d.id);
    forall c | c in d.id && !IsBlank(c) ensures c in Trim(d.id) { TrimDropsBlanks(d.id, c); }
    assert ',' !in Trim(d.id) && '|' !in Trim(d.id);
  }

  lemma NoStringsIsEmpty()
    ensures CanonicalStrings([]) == [] && Join(CanonicalStrings([]), ",") == ""
  {}

  /** Everything in a conflict's name before the delegation IDs. */
  function NameHead(correlationId: string, kind: Kind, subject: string, participants: seq<string>, messages: seq<string>): string {
    correlationId + "|" + KindName(kind) + "|" + subject + "|" + Join(participants, ",") + "|" + Join(messages, ",")
  }

  lemma NameSplits(correlationId: string, kind: Kind, subject: string,
                   participants: seq<string>, messages: seq<string>, delegations: seq<string>)
    ensures Name(correlationId, kind, subject, participants, messages, delegations)
      == NameHead(correlationId, kind, subject, participants, messages) + ['|'] + Join(delegations, ",")
  {}

  /** Two clashes with the same conflict ID are the same two delegations at odds
      over the same resource, and so the same conflict. */
  lemma ResourceIdsIdentify(uuid5: UuidOf, ds: seq<Envelope>, now: int,
                            l: Envelope, r: Envelope, a: ResourceClaim, b: ResourceClaim,
                            l': Envelope, r': Envelope, a': ResourceClaim, b': ResourceClaim)
    requires Injective(uuid5) && WellIdentified([], ds)
    requires l in ds && r in ds && Clash(l, r, a, b) && l' in ds && r' in ds && Clash(l', r', a', b')
    requires ResourceConflict(uuid5, l, r, a, b, now).id == ResourceConflict(uuid5, l', r', a', b', now).id
    ensures {l, r} == {l', r'} && NormalizeID(a.resource) == NormalizeID(a'.resource)
    ensures ResourceConflict(uuid5, l, r, a, b, now) == ResourceConflict(uuid5, l', r', a', b', now)
  {
    hide NormalizeText, CanonicalStrings, PlainId, NormalizeID, NameHead, Name, ValidClaims, Join;
    var s, s' := NormalizeID(a.resource), NormalizeID(a'.resource);
    var p, p' := CanonicalStrings([l.delegate.id, r.delegate.id]), CanonicalStrings([l'.delegate.id, r'.delegate.id]);
    var d, d' := CanonicalStrings([l.id, r.id]), CanonicalStrings([l'.id, r'.id]);
    var none := CanonicalStrings([]);
    JoinedPairShape(l.id, r.id);
    JoinedPairShape(l'.id, r'.id);
    NameSplits(l.correlationId, ResourceContention, s, p, none, d);
    NameSplits(l'.correlationId, ResourceContention, s', p', none, d');
    LastSeparatorSplits(NameHead(l.correlationId, ResourceContention, s, p, none), Join(d, ","),
                        NameHead(l'.correlationId, ResourceContention, s', p', none), Join(d', ","), '|');
    JoinedPairIdentifies(l.id, r.id, l'.id, r'.id);
    assert NormalizeText(l.id) in {NormalizeText(l'.id), NormalizeText(r'.id)};
    assert NormalizeText(r.id) in {NormalizeText(l'.id), NormalizeText(r'.id)};
    if l == r' { PairIsUnordered(l.delegate.id, r.delegate.id); }
    assert p == p' && l.correlationId == l'.correlationId;
    SubjectFromHead(l.correlationId, ResourceContention, s, s', p, none);
    SameClaims(ds, l, r, a, b, l', r', a', b');
  }

  lemma SubjectFromHead(correlationId: string, kind: Kind, s: string, t: string, participants: seq<string>, messages: seq<string>)
    requires NameHead(correlationId, kind, s, participants, messages) == NameHead(correlationId, kind, t, participants, messages)
    ensures s == t
  {
    var before := correlationId + "|" + KindName(kind) + "|";
    var after := "|" + Join(participants, ",") + "|" + Join(messages, ",");
    assert forall x :: NameHead(correlationId, kind, x, participants, messages) == before + x + after;
    CancelAround(before, s, t, after);
  }

  lemma OneClaimPerResource(claims: seq<ResourceClaim>, a: ResourceClaim, b: ResourceClaim)
    requires ValidClaims(claims) && a in claims && b in claims && NormalizeID(a.resource) == NormalizeID(b.resource)
    ensures a == b
  {
    hide NormalizeID;
    var i :| 0 <= i < |claims| && claims[i] == a;
    var j :| 0 <= j < |claims| && claims[j] == b;
  }

  lemma SameClaims(ds: seq<Envelope>, l: Envelope, r: Envelope, a: ResourceClaim, b: ResourceClaim,
                   l': Envelope, r': Envelope, a': ResourceClaim, b': ResourceClaim)
    requires forall d :: d in ds ==> ValidClaims(d.resourceClaims)
    requires l in ds && r in ds && Clash(l, r, a, b) && l' in ds && r' in ds && Clash(l', r', a', b')
    requires {l, r} == {l', r'} && NormalizeID(a.resource) == NormalizeID(a'.resource)
    ensures (l == l' && a == a' && b == b') || (l == r' && a == b' && b == a')
  {
    hide NormalizeID, ValidClaims;
    if l == l' {
      assert r == r';
      OneClaimPerResource(l.resourceClaims, a, a');
      OneClaimPerResource(r.resourceClaims, b, b');
    } else {
      assert l == r' && r == l';
      OneClaimPerResource(l.resourceClaims, a, b');
      OneClaimPerResource(r.resourceClaims, b, a');
    }
  }

  lemma HeadSplits(correlationId: string, kind: Kind, subject: string, participants: seq<string>, messages: seq<string>)
    ensures NameHead(correlationId, kind, subject, participants, messages)
      == correlationId + "|" + KindName(kind) + "|" + subject + "|" + Join(participants, ",") + ['|'] + Join(messages, ",")
  {}

  /** Two contradictions with the same conflict ID are between the same two messages. */
  lemma DecisionIdsIdentify(uuid5: UuidOf, ms: seq<Message>, now: int, m: Message, n: Message, m': Message, n': Message)
    requires Injective(uuid5) && WellIdentified(ms, [])
    requires m in ms && n in ms && Contradict(m, n) && m' in ms && n' in ms && Contradict(m', n')
    requires DecisionConflict(uuid5, m, n, now).id == DecisionConflict(uuid5, m', n', now).id
    ensures {m, n} == {m', n'}
    ensures DecisionConflict(uuid5, m, n, now) == DecisionConflict(uuid5, m', n', now)
  {
    hide NormalizeText, CanonicalStrings, PlainId, NormalizeID, NameHead, Name, Join, Trim, KindName;
    var s, s' := NormalizeText(m.subject), NormalizeText(m'.subject);
    var p, p' := CanonicalStrings([m.senderId, n.senderId]), CanonicalStrings([m'.senderId, n'.senderId]);
    var q, q' := CanonicalStrings([m.id, n.id]), CanonicalStrings([m'.id, n'.id]);
    var none := CanonicalStrings([]);
    NoStringsIsEmpty();
    JoinedPairShape(m.id, n.id);
    JoinedPairShape(m'.id, n'.id);
    var c, c' := m.correlationId, m'.correlationId;
    var k := ContradictoryDecision;
    NameSplits(c, k, s, p, q, none);
    NameSplits(c', k, s', p', q', none);
    LastSeparatorSplits(NameHead(c, k, s, p, q), "", NameHead(c', k, s', p', q'), "", '|');
    HeadSplits(c, k, s, p, q);
    HeadSplits(c', k, s', p', q');
    LastSeparatorSplits(c + "|" + KindName(k) + "|" + s + "|" + Join(p, ","), Join(q, ","),
                        c' + "|" + KindName(k) + "|" + s' + "|" + Join(p', ","), Join(q', ","), '|');
    JoinedPairIdentifies(m.id, n.id, m'.id, n'.id);
    assert NormalizeText(m.id) in {NormalizeText(m'.id), NormalizeText(n'.id)};
    assert NormalizeText(n.id) in {NormalizeText(m'.id), NormalizeText(n'.id)};
    assert (m == m' && n == n') || (m == n' && n == m');
    if m == n' { DecisionConflictIsSymmetric(uuid5, m, n, now); }
  }

  /** A contention and a contradiction never share a conflict ID. */
  lemma KindsHaveDifferentIds(uuid5: UuidOf, now: int, l: Envelope, r: Envelope, a: ResourceClaim, b: ResourceClaim, m: Message, n: Message)
    requires Injective(uuid5) && Clash(l, r, a, b) && Contradict(m, n)
    requires PlainId(l.id) && PlainId(r.id) && NormalizeText(l.id) != NormalizeText(r.id)
    ensures ResourceConflict(uuid5, l, r, a, b, now).id != DecisionConflict(uuid5, m, n, now).id
  {
    hide NormalizeText, CanonicalStrings, PlainId, NormalizeID, NameHead, Name, Join, KindName, Clash, Contradict;
    var none := CanonicalStrings([]);
    var d := CanonicalStrings([l.id, r.id]);
    var p, p' := CanonicalStrings([l.delegate.id, r.delegate.id]), CanonicalStrings([m.senderId, n.senderId]);
    var q := CanonicalStrings([m.id, n.id]);
    var s, s' := NormalizeID(a.resource), NormalizeText(m.subject);
    NoStringsIsEmpty();
    JoinedPairShape(l.id, r.id);
    NameSplits(l.correlationId, ResourceContention, s, p, none, d);
    NameSplits(m.correlationId, ContradictoryDecision, s', p', q, none);
    if ResourceConflict(uuid5, l, r, a, b, now).id == DecisionConflict(uuid5, m, n, now).id {
      LastSeparatorSplits(NameHead(l.correlationId, ResourceContention, s, p, none), Join(d, ","),
                          NameHead(m.correlationId, ContradictoryDecision, s', p', q), "", '|');
    }
  }

  // Detection

  /** The claims of one pair of delegations. */
  method PairConflicts(uuid5: UuidOf, l: Envelope, r: Envelope, now: int) returns (found: seq<Conflict>)
    requires Contend(l, r)
    ensures forall c :: c in found ==> exists a, b :: Clash(l, r, a, b) && c == ResourceConflict(uuid5, l, r, a, b, now)
    ensures forall a, b :: Clash(l, r, a, b) ==> ResourceConflict(uuid5, l, r, a, b, now) in found
  {
    hide NormalizeID, ResourceConflict, Contend;
    found := [];
    for x := 0 to |l.resourceClaims|
      invariant forall c :: c in found ==> exists a, b :: Clash(l, r, a, b) && c == ResourceConflict(uuid5, l, r, a, b, now)
      invariant forall a, b :: Clash(l, r, a, b) && a in l.resourceClaims[..x] ==> ResourceConflict(uuid5, l, r, a, b, now) in found
    {
      var a := l.resourceClaims[x];
      assert l.resourceClaims[..x + 1] == l.resourceClaims[..x] + [a];
      for y := 0 to |r.resourceClaims|
        invariant forall c :: c in found ==> exists a, b :: Clash(l, r, a, b) && c == ResourceConflict(uuid5, l, r, a, b, now)
        invariant forall a, b :: Clash(l, r, a, b) && a in l.resourceClaims[..x] ==> ResourceConflict(uuid5, l, r, a, b, now) in found
        invariant forall b :: Clash(l, r, a, b) && b in r.resourceClaims[..y] ==> ResourceConflict(uuid5, l, r, a, b, now) in found
      {
        var b := r.resourceClaims[y];
        assert r.resourceClaims[..y + 1] == r.resourceClaims[..y] + [b];
        if NormalizeID(a.resource) != NormalizeID(b.resource) || !ClaimsConflict(a, b) { continue; }
        assert Clash(l, r, a, b);
        found := found + [ResourceConflict(uuid5, l, r, a, b, now)];
      }
      assert r.resourceClaims[..|r.resourceClaims|] == r.resourceClaims;
    }
    assert l.resourceClaims[..|l.resourceClaims|] == l.resourceClaims;
  }

  /** Every clash between the i-th delegation and a later one before the end has been found. */
  ghost predicate FoundUpTo(uuid5: UuidOf, ds: seq<Envelope>, now: int, found: seq<Conflict>, i: nat, end: nat)
    requires i < |ds| && end <= |ds|
  {
    forall j, a, b :: i < j < end && Clash(ds[i], ds[j], a, b) ==> ResourceConflict(uuid5, ds[i], ds[j], a, b, now) in found
  }

  lemma FoundGrows(uuid5: UuidOf, ds: seq<Envelope>, now: int, found: seq<Conflict>, more: seq<Conflict>, i: nat, end: nat)
    requires i < |ds| && end <= |ds|
    requires FoundUpTo(uuid5, ds, now, found, i, end) || FoundUpTo(uuid5, ds, now, more, i, end)
    ensures FoundUpTo(uuid5, ds, now, found + more, i, end)
  {
    hide ResourceConflict, Clash;
  }

  lemma PairIsFromDelegations(uuid5: UuidOf, ds: seq<Envelope>, now: int, l: Envelope, r: Envelope, c: Conflict)
    requires l in ds && r in ds && exists a, b :: Clash(l, r, a, b) && c == ResourceConflict(uuid5, l, r, a, b, now)
    ensures FromDelegations(uuid5, ds, now, c)
  {}

  /** The clashes of the i-th delegation with the later ones. */
  method RowConflicts(uuid5: UuidOf, ds: seq<Envelope>, i: nat, now: int) returns (found: seq<Conflict>)
    requires i < |ds|
    ensures forall c :: c in found ==> FromDelegations(uuid5, ds, now, c)
    ensures FoundUpTo(uuid5, ds, now, found, i, |ds|)
  {
    hide ResourceConflict, Contend, Clash, FromDelegations;
    found := [];
    if Terminal(ds[i].status) {
      TerminalNeverContends(ds[i]);
      return;
    }
    for j := i + 1 to |ds|
      invariant forall c :: c in found ==> FromDelegations(uuid5, ds, now, c)
      invariant FoundUpTo(uuid5, ds, now, found, i, j)
    {
      ClashContends(ds[i], ds[j]);
      if !Contend(ds[i], ds[j]) { continue; }
      var more := PairConflicts(uuid5, ds[i], ds[j], now);
      forall c | c in more ensures FromDelegations(uuid5, ds, now, c) {
        PairIsFromDelegations(uuid5, ds, now, ds[i], ds[j], c);
      }
      found := found + more;
    }
  }

  method FindResourceConflicts(uuid5: UuidOf, ds: seq<Envelope>, now: int) returns (found: seq<Conflict>)
    ensures forall c :: c in found <==> FromDelegations(uuid5, ds, now, c)
  {
    hide ResourceConflict, Clash, FoundUpTo, FromDelegations;
    found := [];
    for i := 0 to |ds|
      invariant forall c :: c in found ==> FromDelegations(uuid5, ds, now, c)
      invariant forall k :: 0 <= k < i ==> FoundUpTo(uuid5, ds, now, found, k, |ds|)
    {
      var row := RowConflicts(uuid5, ds, i, now);
      forall k | 0 <= k <= i ensures FoundUpTo(uuid5, ds, now, found + row, k, |ds|) {
        FoundGrows(uuid5, ds, now, found, row, k, |ds|);
      }
      found := found + row;
    }
    forall c | FromDelegations(uuid5, ds, now, c) ensures c in found {
      AllFound(uuid5, ds, now, found, c);
    }
  }

  lemma AllFound(uuid5: UuidOf, ds: seq<Envelope>, now: int, found: seq<Conflict>, c: Conflict)
    requires forall k :: 0 <= k < |ds| ==> FoundUpTo(uuid5, ds, now, found, k, |ds|)
    requires FromDelegations(uuid5, ds, now, c)
    ensures c in found
  {
    hide ResourceConflict, FoundUpTo;
    var l, r, a, b :| l in ds && r in ds && Clash(l, r, a, b) && c == ResourceConflict(uuid5, l, r, a, b, now);
    BothOrdersFound(uuid5, ds, now, found, l, r, a, b);
  }

  lemma ClashContends(l: Envelope, r: Envelope)
    ensures forall a, b :: Clash(l, r, a, b) ==> Contend(l, r)
  {}

  lemma TerminalNeverContends(l: Envelope)
    requires Terminal(l.status)
    ensures forall r, a, b :: !Clash(l, r, a, b)
  {}

  lemma BothOrdersFound(uuid5: UuidOf, ds: seq<Envelope>, now: int, found: seq<Conflict>, l: Envelope, r: Envelope, a: ResourceClaim, b: ResourceClaim)
    requires forall k :: 0 <= k < |ds| ==> FoundUpTo(uuid5, ds, now, found, k, |ds|)
    requires l in ds && r in ds && Clash(l, r, a, b)
    ensures ResourceConflict(uuid5, l, r, a, b, now) in found
  {
    ResourceConflictIsSymmetric(uuid5, l, r, a, b, now);
    hide ResourceConflict;
    var i :| 0 <= i < |ds| && ds[i] == l;
    var j :| 0 <= j < |ds| && ds[j] == r;
    assert i != j by { assert !Contend(l, l); }
    assert FoundUpTo(uuid5, ds, now, found, i, |ds|);
    assert FoundUpTo(uuid5, ds, now, found, j, |ds|);
  }

  /** Keeps the last conflict of each ID; the order of the result is arbitrary. */
  method Deduplicate(conflicts: seq<Conflict>) returns (result: seq<Conflict>)
    ensures forall c :: c in result ==> c in conflicts
    ensures forall c :: c in conflicts ==> exists d :: d in result && d.id == c.id
    ensures forall i, j :: 0 <= i < j < |result| ==> result[i].id != result[j].id
  {
    var seen: map<string, Conflict> := map[];
    for i := 0 to |conflicts|
      invariant forall id :: id in seen ==> seen[id] in conflicts && seen[id].id == id
      invariant forall k :: 0 <= k < i ==> conflicts[k].id in seen
    {
      seen := seen[conflicts[i].id := conflicts[i]];
    }
    result := [];
    var left := seen.Keys;
    while left != {}
      invariant left <= seen.Keys
      invariant forall c :: c in result ==> c.id in seen && c == seen[c.id] && c.id !in left
      invariant forall id :: id in seen && id !in left ==> seen[id] in result
      invariant forall i, j :: 0 <= i < j < |result| ==> result[i].id != result[j].id
      decreases left
    {
      var id :| id in left;
      left := left - {id};
      result := result + [seen[id]];
    }
  }

  const BY_ID: (Conflict, Conflict) -> bool := (c: Conflict, d: Conflict) => LexLe(c.id, d.id)

  lemma ByIdIsOrder()
    ensures TotalPreorder(BY_ID)
  {
    LexIsOrder();
    forall c: Conflict, d: Conflict ensures BY_ID(c, d) || BY_ID(d, c) { LexTotal(c.id, d.id); }
    forall c: Conflict, d: Conflict, e: Conflict | BY_ID(c, d) && BY_ID(d, e) ensures BY_ID(c, e) { LexTransitive(c.id, d.id, e.id); }
  }

  ghost predicate Expected(uuid5: UuidOf, ms: seq<Message>, ds: seq<Envelope>, now: int, c: Conflict) {
    FromDelegations(uuid5, ds, now, c) || FromMessages(uuid5, ms, now, c)
  }

  /** A report of the inputs: exactly the expected conflicts, in strict ID order. */
  ghost predicate IsReport(uuid5: UuidOf, ms: seq<Message>, ds: seq<Envelope>, now: int, report: seq<Conflict>) {
    StrictlySorted(report, BY_ID) && forall c :: c in report <==> Expected(uuid5, ms, ds, now, c)
  }

  // Decisions, grouped by question

  datatype Question = Question(correlationId: string, subject: string)

  function QuestionOf(m: Message): Question {
    Question(m.correlationId, NormalizeText(m.subject))
  }

  method GroupDecisions(ms: seq<Message>) returns (grouped: map<Question, seq<Message>>)
    ensures forall q :: q in grouped ==> forall m :: m in grouped[q] ==> m in ms && m.decision && QuestionOf(m) == q
    ensures forall m :: m in ms && m.decision ==> QuestionOf(m) in grouped && m in grouped[QuestionOf(m)]
  {
    hide NormalizeText, QuestionOf;
    grouped := map[];
    for i := 0 to |ms|
      invariant forall q :: q in grouped ==> forall m :: m in grouped[q] ==> m in ms && m.decision && QuestionOf(m) == q
      invariant forall k :: 0 <= k < i && ms[k].decision ==> QuestionOf(ms[k]) in grouped && ms[k] in grouped[QuestionOf(ms[k])]
    {
      if !ms[i].decision { continue; }
      var q := QuestionOf(ms[i]);
      grouped := grouped[q := (if q in grouped then grouped[q] else []) + [ms[i]]];
    }
  }

  /** Every contradiction between the i-th message and a later one before the end has been found. */
  ghost predicate ContradictedUpTo(uuid5: UuidOf, group: seq<Message>, now: int, found: seq<Conflict>, i: nat, end: nat)
    requires i < |group| && end <= |group|
  {
    forall j :: i < j < end && Contradict(group[i], group[j]) ==> DecisionConflict(uuid5, group[i], group[j], now) in found
  }

  method DecisionRow(uuid5: UuidOf, group: seq<Message>, i: nat, now: int) returns (found: seq<Conflict>)
    requires i < |group| && forall m :: m in group ==> SameQuestion(group[i], m)
    ensures forall c :: c in found ==> FromMessages(uuid5, group, now, c)
    ensures ContradictedUpTo(uuid5, group, now, found, i, |group|)
  {
    hide DecisionConflict, NormalizeText, NormalizeID, DigestOf, SameQuestion;
    found := [];
    for j := i + 1 to |group|
      invariant forall c :: c in found ==> FromMessages(uuid5, group, now, c)
      invariant ContradictedUpTo(uuid5, group, now, found, i, j)
    {
      var m, n := group[i], group[j];
      assert m in group && n in group;
      if NormalizeID(m.senderId) == NormalizeID(n.senderId) || DigestOf(m) == DigestOf(n) { continue; }
      assert Contradict(m, n);
      found := found + [DecisionConflict(uuid5, m, n, now)];
    }
  }

  /** The contradictions inside one group. */
  method GroupConflicts(uuid5: UuidOf, group: seq<Message>, q: Question, now: int) returns (found: seq<Conflict>)
    requires forall m :: m in group ==> m.decision && QuestionOf(m) == q
    ensures forall c :: c in found <==> FromMessages(uuid5, group, now, c)
  {
    hide DecisionConflict, NormalizeText, Contradict, FromMessages, ContradictedUpTo;
    found := [];
    for i := 0 to |group|
      invariant forall c :: c in found ==> FromMessages(uuid5, group, now, c)
      invariant forall k :: 0 <= k < i ==> ContradictedUpTo(uuid5, group, now, found, k, |group|)
    {
      var row := DecisionRow(uuid5, group, i, now);
      forall k | 0 <= k <= i ensures ContradictedUpTo(uuid5, group, now, found + row, k, |group|) {
        ContradictedGrows(uuid5, group, now, found, row, k);
      }
      found := found + row;
    }
    forall c | FromMessages(uuid5, group, now, c) ensures c in found {
      AllContradictionsFound(uuid5, group, now, found, c);
    }
  }

  lemma ContradictedGrows(uuid5: UuidOf, group: seq<Message>, now: int, found: seq<Conflict>, more: seq<Conflict>, i: nat)
    requires i < |group|
    requires ContradictedUpTo(uuid5, group, now, found, i, |group|) || ContradictedUpTo(uuid5, group, now, more, i, |group|)
    ensures ContradictedUpTo(uuid5, group, now, found + more, i, |group|)
  {
    hide DecisionConflict, Contradict;
  }

  lemma AllContradictionsFound(uuid5: UuidOf, group: seq<Message>, now: int, found: seq<Conflict>, c: Conflict)
    requires forall k :: 0 <= k < |group| ==> ContradictedUpTo(uuid5, group, now, found, k, |group|)
    requires FromMessages(uuid5, group, now, c)
    ensures c in found
  {
    hide DecisionConflict, DigestOf, NormalizeText, NormalizeID;
    var m, n :| m in group && n in group && Contradict(m, n) && c == DecisionConflict(uuid5, m, n, now);
    DecisionConflictIsSymmetric(uuid5, m, n, now);
    var i :| 0 <= i < |group| && group[i] == m;
    var j :| 0 <= j < |group| && group[j] == n;
    assert i != j;
    assert ContradictedUpTo(uuid5, group, now, found, i, |group|);
    assert ContradictedUpTo(uuid5, group, now, found, j, |group|);
  }

  method FindDecisionConflicts(uuid5: UuidOf, ms: seq<Message>, now: int) returns (found: seq<Conflict>)
    ensures forall c :: c in found <==> FromMessages(uuid5, ms, now, c)
  {
    var grouped := GroupDecisions(ms);
    found := [];
    var left := grouped.Keys;
    while left != {}
      invariant left <= grouped.Keys
      invariant forall c :: c in found ==> FromMessages(uuid5, ms, now, c)
      invariant forall q, c :: q in grouped && q !in left && FromMessages(uuid5, grouped[q], now, c) ==> c in found
      decreases left
    {
      hide DecisionConflict, NormalizeText, NormalizeID, DigestOf;
      var q :| q in left;
      left := left - {q};
      var more := GroupConflicts(uuid5, grouped[q], q, now);
      forall c | c in more ensures FromMessages(uuid5, ms, now, c) {
        var m, n :| m in grouped[q] && n in grouped[q] && Contradict(m, n) && c == DecisionConflict(uuid5, m, n, now);
        assert m in ms && n in ms;
      }
      found := found + more;
    }
    hide DecisionConflict, NormalizeText, NormalizeID, DigestOf;
    forall c | FromMessages(uuid5, ms, now, c) ensures c in found {
      var m, n :| m in ms && n in ms && Contradict(m, n) && c == DecisionConflict(uuid5, m, n, now);
      assert QuestionOf(m) == QuestionOf(n);
      assert FromMessages(uuid5, grouped[QuestionOf(m)], now, c);
    }
  }

  // The whole report

  lemma SameContention(uuid5: UuidOf, ds: seq<Envelope>, now: int, c: Conflict, d: Conflict)
    requires Injective(uuid5) && WellIdentified([], ds)
    requires FromDelegations(uuid5, ds, now, c) && FromDelegations(uuid5, ds, now, d) && c.id == d.id
    ensures c == d
  {
    hide ResourceConflict, Clash, WellIdentified, Injective;
    var l, r, a, b :| l in ds && r in ds && Clash(l, r, a, b) && c == ResourceConflict(uuid5, l, r, a, b, now);
    var l', r', a', b' :| l' in ds && r' in ds && Clash(l', r', a', b') && d == ResourceConflict(uuid5, l', r', a', b', now);
    ResourceIdsIdentify(uuid5, ds, now, l, r, a, b, l', r', a', b');
  }

  lemma SameContradiction(uuid5: UuidOf, ms: seq<Message>, now: int, c: Conflict, d: Conflict)
    requires Injective(uuid5) && WellIdentified(ms, [])
    requires FromMessages(uuid5, ms, now, c) && FromMessages(uuid5, ms, now, d) && c.id == d.id
    ensures c == d
  {
    hide DecisionConflict, Contradict, WellIdentified, Injective;
    var m, n :| m in ms && n in ms && Contradict(m, n) && c == DecisionConflict(uuid5, m, n, now);
    var m', n' :| m' in ms && n' in ms && Contradict(m', n') && d == DecisionConflict(uuid5, m', n', now);
    DecisionIdsIdentify(uuid5, ms, now, m, n, m', n');
  }

  lemma MixedIdsDiffer(uuid5: UuidOf, ms: seq<Message>, ds: seq<Envelope>, now: int, c: Conflict, d: Conflict)
    requires Injective(uuid5) && WellIdentified(ms, ds)
    requires FromDelegations(uuid5, ds, now, c) && FromMessages(uuid5, ms, now, d)
    ensures c.id != d.id
  {
    hide ResourceConflict, DecisionConflict, Contradict, NormalizeText, NormalizeID, PlainId, ValidClaims, Injective;
    var l, r, a, b :| l in ds && r in ds && Clash(l, r, a, b) && c == ResourceConflict(uuid5, l, r, a, b, now);
    var m, n :| m in ms && n in ms && Contradict(m, n) && d == DecisionConflict(uuid5, m, n, now);
    assert l != r by { assert !Contend(l, l); }
    KindsHaveDifferentIds(uuid5, now, l, r, a, b, m, n);
  }

  lemma WellIdentifiedParts(ms: seq<Message>, ds: seq<Envelope>)
    requires WellIdentified(ms, ds)
    ensures WellIdentified([], ds) && WellIdentified(ms, [])
  {
    hide PlainId, ValidClaims, NormalizeText;
  }

  lemma SameIdSameConflict(uuid5: UuidOf, ms: seq<Message>, ds: seq<Envelope>, now: int, c: Conflict, d: Conflict)
    requires Injective(uuid5) && WellIdentified(ms, ds)
    requires Expected(uuid5, ms, ds, now, c) && Expected(uuid5, ms, ds, now, d) && c.id == d.id
    ensures c == d
  {
    WellIdentifiedParts(ms, ds);
    hide WellIdentified, FromDelegations, FromMessages, Injective;
    if FromDelegations(uuid5, ds, now, c) && FromDelegations(uuid5, ds, now, d) {
      SameContention(uuid5, ds, now, c, d);
    } else if FromMessages(uuid5, ms, now, c) && FromMessages(uuid5, ms, now, d) {
      SameContradiction(uuid5, ms, now, c, d);
    } else if FromDelegations(uuid5, ds, now, c) {
      MixedIdsDiffer(uuid5, ms, ds, now, c, d);
    } else {
      MixedIdsDiffer(uuid5, ms, ds, now, d, c);
    }
  }

  /** On well-identified inputs the report is exact: every contention and
      contradiction once, nothing else, in strict ID order. */
  method DetectConflicts(uuid5: UuidOf, ms: seq<Message>, ds: seq<Envelope>, now: int) returns (report: seq<Conflict>)
    ensures forall c :: c in report ==> Expected(uuid5, ms, ds, now, c)
    ensures forall c :: Expected(uuid5, ms, ds, now, c) ==> exists d :: d in report && d.id == c.id
    ensures forall i, j :: 0 <= i < j < |report| ==> LexLe(report[i].id, report[j].id)
    ensures Injective(uuid5) && WellIdentified(ms, ds) ==> IsReport(uuid5, ms, ds, now, report)
  {
    var contentions := FindResourceConflicts(uuid5, ds, now);
    contentions := Deduplicate(contentions);
    var contradictions := FindDecisionConflicts(uuid5, ms, now);
    contradictions := Deduplicate(contradictions);
    var all := contentions + contradictions;
    report := Sort(all, BY_ID);
    hide FromDelegations, FromMessages, Injective, WellIdentified;
    SortPermutes(all, BY_ID);
    ByIdIsOrder();
    SortIsSorted(all, BY_ID);
    forall i, j | 0 <= i < j < |report| ensures LexLe(report[i].id, report[j].id) { assert BY_ID(report[i], report[j]); }
    forall c | Expected(uuid5, ms, ds, now, c) ensures exists d :: d in report && d.id == c.id {
      var d: Conflict :| d in all && d.id == c.id;
      assert d in report;
    }
    if Injective(uuid5) && WellIdentified(ms, ds) {
      ExactReport(uuid5, ms, ds, now, contentions, contradictions);
    }
  }

  lemma ExactReport(uuid5: UuidOf, ms: seq<Message>, ds: seq<Envelope>, now: int, contentions: seq<Conflict>, contradictions: seq<Conflict>)
    requires Injective(uuid5) && WellIdentified(ms, ds)
    requires forall c :: c in contentions ==> FromDelegations(uuid5, ds, now, c)
    requires forall c :: c in contradictions ==> FromMessages(uuid5, ms, now, c)
    requires forall c :: Expected(uuid5, ms, ds, now, c) ==> exists d :: d in contentions + contradictions && d.id == c.id
    requires forall i, j :: 0 <= i < j < |contentions| ==> contentions[i].id != contentions[j].id
    requires forall i, j :: 0 <= i < j < |contradictions| ==> contradictions[i].id != contradictions[j].id
    ensures IsReport(uuid5, ms, ds, now, Sort(contentions + contradictions, BY_ID))
  {
    hide Injective, WellIdentified, FromDelegations, FromMessages;
    var all := contentions + contradictions;
    ByIdIsOrder();
    SortPermutes(all, BY_ID);
    forall c | Expected(uuid5, ms, ds, now, c) ensures c in all {
      var d :| d in all && d.id == c.id;
      SameIdSameConflict(uuid5, ms, ds, now, c, d);
    }
    forall i, j | 0 <= i < j < |all| ensures !Ties(all[i], all[j], BY_ID) {
      if Ties(all[i], all[j], BY_ID) {
        LexAntisymmetric(all[i].id, all[j].id);
        if i < |contentions| <= j {
          assert all[i] in contentions && all[j] in contradictions;
          SameIdSameConflict(uuid5, ms, ds, now, all[i], all[j]);
          KindsDiffer(uuid5, ms, ds, now, all[i]);
        }
      }
    }
    SortIsStrict(all, BY_ID);
  }

  lemma KindsDiffer(uuid5: UuidOf, ms: seq<Message>, ds: seq<Envelope>, now: int, c: Conflict)
    ensures FromDelegations(uuid5, ds, now, c) ==> c.kind == ResourceContention
    ensures FromMessages(uuid5, ms, now, c) ==> c.kind == ContradictoryDecision
  {}

  /** The report depends on which records are given and not on their order or repetition. */
  lemma ReportIsOrderIndependent(uuid5: UuidOf, ms: seq<Message>, ds: seq<Envelope>, ms': seq<Message>, ds': seq<Envelope>,
                                 now: int, report: seq<Conflict>, report': seq<Conflict>)
    requires IsReport(uuid5, ms, ds, now, report) && IsReport(uuid5, ms', ds', now, report')
    requires forall m :: m in ms <==> m in ms'
    requires forall d :: d in ds <==> d in ds'
    ensures report == report'
  {
    forall c ensures c in report <==> c in report' {
      hide ResourceConflict, DecisionConflict, Clash, Contradict, StrictlySorted;
      assert FromDelegations(uuid5, ds, now, c) <==> FromDelegations(uuid5, ds', now, c);
      assert FromMessages(uuid5, ms, now, c) <==> FromMessages(uuid5, ms', now, c);
    }
    StrictOrderIsUnique(report, report', BY_ID);
  }

  /** Each pair of delegations at odds over a resource has exactly one entry, which
      names that pair, that resource, and the two delegates. */
  lemma OneEntryPerClash(uuid5: UuidOf, ms: seq<Message>, ds: seq<Envelope>, now: int, report: seq<Conflict>,
                         l: Envelope, r: Envelope, a: ResourceClaim, b: ResourceClaim)
    requires Injective(uuid5) && WellIdentified(ms, ds) && IsReport(uuid5, ms, ds, now, report)
    requires l in ds && r in ds && Clash(l, r, a, b)
    ensures var c := ResourceConflict(uuid5, l, r, a, b, now);
      && c in report
      && c.participantIds == CanonicalStrings([l.delegate.id, r.delegate.id])
      && forall i :: 0 <= i < |report| && report[i].kind == ResourceContention
           && report[i].delegationIds == CanonicalStrings([l.id, r.id]) && report[i].subject == NormalizeID(a.resource)
           ==> report[i] == c
    ensures forall i, j :: 0 <= i < j < |report| ==> report[i] != report[j]
  {
    var c := ResourceConflict(uuid5, l, r, a, b, now);
    assert Expected(uuid5, ms, ds, now, c);
    assert l != r by { assert !Contend(l, l); }
    forall i | 0 <= i < |report| && report[i].kind == ResourceContention
           && report[i].delegationIds == CanonicalStrings([l.id, r.id]) && report[i].subject == NormalizeID(a.resource)
      ensures report[i] == c
    {
      EntryIsClash(uuid5, ms, ds, now, report[i], l, r, a, b);
    }
  }

  lemma EntryIsClash(uuid5: UuidOf, ms: seq<Message>, ds: seq<Envelope>, now: int, c: Conflict,
                     l: Envelope, r: Envelope, a: ResourceClaim, b: ResourceClaim)
    requires WellIdentified(ms, ds) && Expected(uuid5, ms, ds, now, c) && c.kind == ResourceContention
    requires l in ds && r in ds && Clash(l, r, a, b)
    requires c.delegationIds == CanonicalStrings([l.id, r.id]) && c.subject == NormalizeID(a.resource)
    ensures c == ResourceConflict(uuid5, l, r, a, b, now)
  {
    KindsDiffer(uuid5, ms, ds, now, c);
    hide NormalizeText, CanonicalStrings, PlainId, NormalizeID, Name, ValidClaims;
    var l', r', a', b' :| l' in ds && r' in ds && Clash(l', r', a', b') && c == ResourceConflict(uuid5, l', r', a', b', now);
    assert l != r && l' != r' by { assert !Contend(l, l) && !Contend(l', l'); }
    JoinedPairIdentifies(l.id, r.id, l'.id, r'.id);
    assert NormalizeText(l.id) in {NormalizeText(l'.id), NormalizeText(r'.id)};
    assert NormalizeText(r.id) in {NormalizeText(l'.id), NormalizeText(r'.id)};
    SameClaims(ds, l, r, a, b, l', r', a', b');
    if l != l' { ResourceConflictIsSymmetric(uuid5, l, r, a, b, now); }
  }

  lemma ContradictionIsReported(uuid5: UuidOf, ms: seq<Message>, ds: seq<Envelope>, now: int, report: seq<Conflict>, x: Message, y: Message)
    requires IsReport(uuid5, ms, ds, now, report) && x in ms && y in ms
    ensures Contradict(x, y) ==> exists c ::
      (c in report && c.kind == ContradictoryDecision && c.correlationId == x.correlationId && c.subject == NormalizeText(x.subject))
  {
    hide NormalizeText, NormalizeID, CanonicalStrings, Name, DigestOf;
    if Contradict(x, y) { assert Expected(uuid5, ms, ds, now, DecisionConflict(uuid5, x, y, now)); }
  }

  /** A question at least two senders answered, with no contradiction reported, has one answer. */
  lemma SilenceMeansAgreement(uuid5: UuidOf, ms: seq<Message>, ds: seq<Envelope>, now: int, report: seq<Conflict>,
                              v: Message, w: Message, m: Message, n: Message)
    requires IsReport(uuid5, ms, ds, now, report)
    requires v in ms && w in ms && m in ms && n in ms
    requires SameQuestion(v, w) && SameQuestion(v, m) && SameQuestion(v, n)
    requires NormalizeID(v.senderId) != NormalizeID(w.senderId)
    requires forall c :: c in report && c.kind == ContradictoryDecision ==>
      !(c.correlationId == v.correlationId && c.subject == NormalizeText(v.subject))
    ensures DigestOf(m) == DigestOf(n)
  {
    forall x, y | x in ms && y in ms && SameQuestion(v, x) && SameQuestion(v, y) ensures !Contradict(x, y) {
      ContradictionIsReported(uuid5, ms, ds, now, report, x, y);
    }
    hide NormalizeText, NormalizeID, DigestOf, IsReport;
    assert !Contradict(m, n) && !Contradict(m, v) && !Contradict(m, w) && !Contradict(n, v) && !Contradict(n, w) && !Contradict(v, w);
  }

  // The report, said over the records

  /** Both are open at overlapping times for different delegates of one correlation,
      and their claims on the resource exclude each other: not both only read, and
      one of them is exclusive or both write. */
  ghost predicate AtOdds(l: Envelope, r: Envelope, a: ResourceClaim, b: ResourceClaim, resource: string) {
    && l.status != Completed && l.status != Cancelled && l.status != Rejected && l.status != Expired
    && r.status != Completed && r.status != Cancelled && r.status != Rejected && r.status != Expired
    && l.correlationId == r.correlationId && NormalizeID(l.delegate.id) != NormalizeID(r.delegate.id)
    && l.createdAt < r.dueAt && r.createdAt < l.dueAt
    && a in l.resourceClaims && b in r.resourceClaims && NormalizeID(a.resource) == resource && NormalizeID(b.resource) == resource
    && (a.access != Read || b.access != Read)
    && (a.exclusive || b.exclusive || (a.access == Write && b.access == Write))
  }

  predicate NamesContention(c: Conflict, l: Envelope, r: Envelope, resource: string) {
    c.kind == ResourceContention && c.delegationIds == CanonicalStrings([l.id, r.id]) && c.subject == resource
  }

  /** The report names two delegations and a resource if and only if they are at odds
      over it; the entry names their delegates, and it is grave if and only if both
      want to write alone. */
  lemma ContentionReportedIff(uuid5: UuidOf, ms: seq<Message>, ds: seq<Envelope>, now: int, report: seq<Conflict>,
                              l: Envelope, r: Envelope, resource: string)
    requires WellIdentified(ms, ds) && IsReport(uuid5, ms, ds, now, report) && l in ds && r in ds && l != r
    ensures (exists c :: c in report && NamesContention(c, l, r, resource)) <==> exists a, b :: AtOdds(l, r, a, b, resource)
    ensures forall c, a, b :: c in report && NamesContention(c, l, r, resource) && AtOdds(l, r, a, b, resource) ==> GraveIff(c, l, r, a, b, now)
  {
    hide AtOdds, NamesContention, IsReport, WellIdentified, GraveIff, ResourceConflict, Clash, Expected;
    if a, b :| AtOdds(l, r, a, b, resource) { OddsAreEntered(uuid5, ms, ds, now, report, l, r, a, b, resource); }
    forall c | c in report && NamesContention(c, l, r, resource) ensures exists a, b :: AtOdds(l, r, a, b, resource) {
      EntriesAreExpected(uuid5, ms, ds, now, report, c);
      ContentionIsAtOdds(uuid5, ms, ds, now, c, l, r, resource);
    }
    forall c, a, b | c in report && NamesContention(c, l, r, resource) && AtOdds(l, r, a, b, resource) ensures GraveIff(c, l, r, a, b, now) {
      EntriesAreExpected(uuid5, ms, ds, now, report, c);
      OddsAreGrave(uuid5, ms, ds, now, c, l, r, a, b, resource);
    }
  }

  predicate GraveIff(c: Conflict, l: Envelope, r: Envelope, a: ResourceClaim, b: ResourceClaim, now: int) {
    && c.correlationId == l.correlationId && c.detectedAt == now
    && c.participantIds == CanonicalStrings([l.delegate.id, r.delegate.id])
    && (c.severity == High <==> a.exclusive && b.exclusive && a.access == Write && b.access == Write)
  }

  lemma EntriesAreExpected(uuid5: UuidOf, ms: seq<Message>, ds: seq<Envelope>, now: int, report: seq<Conflict>, c: Conflict)
    requires IsReport(uuid5, ms, ds, now, report)
    ensures c in report <==> Expected(uuid5, ms, ds, now, c)
  {
    hide Expected, StrictlySorted;
  }

  lemma OddsAreEntered(uuid5: UuidOf, ms: seq<Message>, ds: seq<Envelope>, now: int, report: seq<Conflict>,
                       l: Envelope, r: Envelope, a: ResourceClaim, b: ResourceClaim, resource: string)
    requires IsReport(uuid5, ms, ds, now, report) && l in ds && r in ds && AtOdds(l, r, a, b, resource)
    ensures exists c :: c in report && NamesContention(c, l, r, resource)
  {
    hide Name, NormalizeID, CanonicalStrings, StrictlySorted;
    var c := ResourceConflict(uuid5, l, r, a, b, now);
    assert Expected(uuid5, ms, ds, now, c);
    assert c in report && NamesContention(c, l, r, resource);
  }

  lemma OddsAreGrave(uuid5: UuidOf, ms: seq<Message>, ds: seq<Envelope>, now: int, c: Conflict,
                     l: Envelope, r: Envelope, a: ResourceClaim, b: ResourceClaim, resource: string)
    requires WellIdentified(ms, ds) && l in ds && r in ds && Expected(uuid5, ms, ds, now, c)
    requires NamesContention(c, l, r, resource) && AtOdds(l, r, a, b, resource)
    ensures GraveIff(c, l, r, a, b, now)
  {
    hide Name, NormalizeID, CanonicalStrings, PlainId, ValidClaims, WellIdentified, Expected;
    EntryIsClash(uuid5, ms, ds, now, c, l, r, a, b);
  }

  lemma ContentionIsAtOdds(uuid5: UuidOf, ms: seq<Message>, ds: seq<Envelope>, now: int, c: Conflict, l: Envelope, r: Envelope, resource: string)
    requires WellIdentified(ms, ds) && l in ds && r in ds && l != r && Expected(uuid5, ms, ds, now, c) && NamesContention(c, l, r, resource)
    ensures exists a, b :: AtOdds(l, r, a, b, resource)
  {
    KindsDiffer(uuid5, ms, ds, now, c);
    hide NormalizeText, CanonicalStrings, PlainId, NormalizeID, Name, ValidClaims, AtOdds;
    var l', r', a, b :| l' in ds && r' in ds && Clash(l', r', a, b) && c == ResourceConflict(uuid5, l', r', a, b, now);
    assert l' != r' by { assert !Contend(l', l'); }
    assert NormalizeText(l.id) != NormalizeText(r.id) && NormalizeText(l'.id) != NormalizeText(r'.id);
    JoinedPairIdentifies(l.id, r.id, l'.id, r'.id);
    assert NormalizeText(l.id) in {NormalizeText(l'.id), NormalizeText(r'.id)};
    assert NormalizeText(r.id) in {NormalizeText(l'.id), NormalizeText(r'.id)};
    ClashIsAtOdds(l', r', a, b);
  }

  lemma ClashIsAtOdds(l: Envelope, r: Envelope, a: ResourceClaim, b: ResourceClaim)
    requires Clash(l, r, a, b)
    ensures AtOdds(l, r, a, b, NormalizeID(a.resource)) && AtOdds(r, l, b, a, NormalizeID(a.resource))
  {
    hide NormalizeID;
  }

  /** Two decisions on one question by different senders with different answers. */
  predicate Disagree(m: Message, n: Message) {
    && m.decision && n.decision && m.correlationId == n.correlationId && NormalizeText(m.subject) == NormalizeText(n.subject)
    && NormalizeID(m.senderId) != NormalizeID(n.senderId) && (Trim(m.schema) != Trim(n.schema) || m.data != n.data)
  }

  predicate NamesContradiction(c: Conflict, m: Message, n: Message) {
    c.kind == ContradictoryDecision && c.messageIds == CanonicalStrings([m.id, n.id])
  }

  /** The report names two messages if and only if they disagree; the entry is grave
      and names the question and both senders. */
  lemma ContradictionReportedIff(uuid5: UuidOf, ms: seq<Message>, ds: seq<Envelope>, now: int, report: seq<Conflict>, m: Message, n: Message)
    requires WellIdentified(ms, ds) && IsReport(uuid5, ms, ds, now, report) && m in ms && n in ms && m != n
    ensures (exists c :: c in report && NamesContradiction(c, m, n)) <==> Disagree(m, n)
    ensures forall c :: c in report && NamesContradiction(c, m, n) ==>
      && c.correlationId == m.correlationId && c.subject == NormalizeText(m.subject) && c.severity == High && c.detectedAt == now
      && c.participantIds == CanonicalStrings([m.senderId, n.senderId])
  {
    hide Name, NormalizeID, NormalizeText, CanonicalStrings, PlainId, Trim, ValidClaims, StrictlySorted;
    if Disagree(m, n) {
      assert Expected(uuid5, ms, ds, now, DecisionConflict(uuid5, m, n, now));
      assert NamesContradiction(DecisionConflict(uuid5, m, n, now), m, n);
    }
    forall c | c in report && NamesContradiction(c, m, n) ensures Disagree(m, n) && c == DecisionConflict(uuid5, m, n, now) {
      ContradictionIsDisagreement(uuid5, ms, ds, now, c, m, n);
    }
  }

  lemma ContradictionIsDisagreement(uuid5: UuidOf, ms: seq<Message>, ds: seq<Envelope>, now: int, c: Conflict, m: Message, n: Message)
    requires WellIdentified(ms, ds) && m in ms && n in ms && m != n && Expected(uuid5, ms, ds, now, c) && NamesContradiction(c, m, n)
    ensures Disagree(m, n) && c == DecisionConflict(uuid5, m, n, now)
  {
    KindsDiffer(uuid5, ms, ds, now, c);
    hide NormalizeText, CanonicalStrings, PlainId, NormalizeID, Name, Trim, ValidClaims;
    var m', n' :| m' in ms && n' in ms && Contradict(m', n') && c == DecisionConflict(uuid5, m', n', now);
    assert NormalizeText(m.id) != NormalizeText(n.id) && NormalizeText(m'.id) != NormalizeText(n'.id);
    JoinedPairIdentifies(m.id, n.id, m'.id, n'.id);
    assert NormalizeText(m.id) in {NormalizeText(m'.id), NormalizeText(n'.id)};
    assert NormalizeText(n.id) in {NormalizeText(m'.id), NormalizeText(n'.id)};
    if m' != m { DecisionConflictIsSymmetric(uuid5, m', n', now); }
  }
}
