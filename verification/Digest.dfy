/** What a message's digest covers: the normalised view of its envelope, and so
    exactly the differences that normalisation keeps. */
module Digest {
  import opened Sorting
  import opened Text

  datatype Message = Message(
    id: string, idempotencyKey: string, schemaVersion: string, correlationId: string, causationId: string, kind: string,
    senderId: string, recipientId: string, confidentiality: string, authorityLevel: int,
    payloadSchema: string, payloadSubject: string, payloadData: string, evidenceRefs: seq<string>,
    requiresAck: bool, humanApprovalRef: string, provenanceSummary: string, createdAt: int, expiresAt: int)

  datatype View = View(
    schemaVersion: string, correlationId: string, causationId: string, kind: string,
    senderId: string, recipientId: string, confidentiality: string, authorityLevel: int,
    payloadSchema: string, payloadSubject: string, payloadData: string, evidenceRefs: seq<string>,
    requiresAck: bool, humanApprovalRef: string, provenanceSummary: string)

  /** Encoding and hashing: injective on views, except that encoding drops the
      insignificant spaces inside the payload, which `compact` stands for. */
  datatype Hash = Hash(of: View -> string, compact: string -> string)

  ghost predicate Injective(h: Hash) {
    forall v: View, w: View :: h.of(v) == h.of(w) ==> v == w
  }

  function ViewOf(h: Hash, m: Message): View {
    View(Trim(m.schemaVersion), Trim(m.correlationId), Trim(m.causationId), m.kind,
         NormalizeID(m.senderId), NormalizeID(m.recipientId), m.confidentiality, m.authorityLevel,
         Trim(m.payloadSchema), NormalizeText(m.payloadSubject), h.compact(Trim(m.payloadData)), CanonicalStrings(m.evidenceRefs),
         m.requiresAck, Trim(m.humanApprovalRef), NormalizeText(m.provenanceSummary))
  }

  function ComputeMessageDigest(h: Hash, m: Message): string {
    h.of(ViewOf(h, m))
  }

  /** The same words, the same set of evidence, the same trimmed and named fields. */
  ghost predicate SameMeaning(h: Hash, m: Message, n: Message) {
    && m.kind == n.kind && m.confidentiality == n.confidentiality && m.authorityLevel == n.authorityLevel && m.requiresAck == n.requiresAck
    && NormalizeID(m.senderId) == NormalizeID(n.senderId) && NormalizeID(m.recipientId) == NormalizeID(n.recipientId)
    && Trim(m.schemaVersion) == Trim(n.schemaVersion) && Trim(m.correlationId) == Trim(n.correlationId)
    && Trim(m.causationId) == Trim(n.causationId) && Trim(m.payloadSchema) == Trim(n.payloadSchema)
    && Trim(m.humanApprovalRef) == Trim(n.humanApprovalRef) && h.compact(Trim(m.payloadData)) == h.compact(Trim(n.payloadData))
    && Fields(m.payloadSubject) == Fields(n.payloadSubject) && Fields(m.provenanceSummary) == Fields(n.provenanceSummary)
    && NonBlankTexts(m.evidenceRefs) == NonBlankTexts(n.evidenceRefs)
  }

  /** Two messages have one digest if and only if they mean the same: spacing,
      order and repetition of evidence never matter, and neither do the message's
      own ID, its idempotency key or its times. */
  lemma DigestsAgreeIffSameMeaning(h: Hash, m: Message, n: Message)
    requires Injective(h)
    ensures ComputeMessageDigest(h, m) == ComputeMessageDigest(h, n) <==> SameMeaning(h, m, n)
  {
    hide Trim, NormalizeID, NormalizeText, CanonicalStrings, NonBlankTexts;
    NormalizeTextIsCanonical(m.payloadSubject, n.payloadSubject);
    NormalizeTextIsCanonical(m.provenanceSummary, n.provenanceSummary);
    CanonicalStringsEqualIffSameTexts(m.evidenceRefs, n.evidenceRefs);
  }

  // Names: their words are joined with hyphens

  function LowerAll(words: seq<string>): seq<string> {
    if words == [] then [] else [Lower(words[0])] + LowerAll(words[1..])
  }

  /** What a name says: its words, whatever their spacing and case. */
  function NameWords(name: string): seq<string> {
    LowerAll(Fields(name))
  }

  lemma LowerWord(w: string)
    ensures Lower(Lower(w)) == Lower(w)
    ensures IsWord(w) ==> IsWord(Lower(w))
    ensures '-' in Lower(w) <==> '-' in w
  {
    forall i | 0 <= i < |w| ensures Lower(w)[i] == '-' <==> w[i] == '-' {}
    if '-' in w {
      var i :| 0 <= i < |w| && w[i] == '-';
      assert Lower(w)[i] == '-';
    }
  }

  lemma {:induction false} LowerJoin(words: seq<string>)
    ensures Lower(Join(words, "-")) == Join(LowerAll(words), "-")
    ensures |LowerAll(words)| == |words|
  {
    if |words| == 1 {
      assert LowerAll(words) == [Lower(words[0])] + [];
    } else if words != [] {
      LowerJoin(words[1..]);
      var rest := Join(words[1..], "-");
      assert Join(words, "-") == words[0] + "-" + rest;
      assert Lower(words[0] + "-" + rest) == Lower(words[0]) + "-" + Lower(rest);
      assert LowerAll(words)[1..] == LowerAll(words[1..]);
    }
  }

  lemma {:induction false} LowerAllWords(words: seq<string>)
    requires forall w :: w in words ==> IsWord(w)
    ensures forall w :: w in LowerAll(words) ==> IsWord(w)
    ensures (forall w :: w in words ==> '-' !in w) ==> forall w :: w in LowerAll(words) ==> '-' !in w
  {
    hide Lower, IsWord;
    if words != [] {
      LowerWord(words[0]);
      LowerAllWords(words[1..]);
      assert words == [words[0]] + words[1..];
    }
  }

  /** A name's ID is its words joined with hyphens. */
  lemma IdJoinsWords(name: string)
    ensures NormalizeID(name) == Join(NameWords(name), "-")
    ensures forall w :: w in NameWords(name) ==> IsWord(w)
    ensures |NameWords(name)| == |Fields(name)|
  {
    hide Trim, Lower, Fields;
    FieldsTrim(name);
    LowerJoin(Fields(name));
    LowerAllWords(Fields(name));
  }

  lemma {:induction false} JoinIsWord(words: seq<string>)
    requires words != [] && forall w :: w in words ==> IsWord(w)
    ensures IsWord(Join(words, "-"))
  {
    if |words| > 1 {
      JoinIsWord(words[1..]);
      assert words[0] in words;
    }
  }

  /** A hyphen with something on both sides. */
  predicate InnerHyphen(id: string, i: int) {
    0 < i < |id| - 1 && id[i] == '-'
  }

  lemma {:induction false} SeveralWordsAreHyphenated(words: seq<string>)
    requires |words| >= 2 && forall w :: w in words ==> IsWord(w)
    ensures InnerHyphen(Join(words, "-"), |words[0]|)
  {
    JoinIsWord(words[1..]);
    assert words[0] in words;
  }

  /** The name whose words are the given ones. */
  lemma SpacedName(words: seq<string>)
    requires forall w :: w in words ==> IsWord(w) && Lower(w) == w
    ensures NameWords(Join(words, " ")) == words && NormalizeID(Join(words, " ")) == Join(words, "-")
  {
    hide Fields, Trim, Lower;
    FieldsOfJoin(words);
    AlreadyLower(words);
    IdJoinsWords(Join(words, " "));
  }

  lemma {:induction false} AlreadyLower(words: seq<string>)
    requires forall w :: w in words ==> Lower(w) == w
    ensures LowerAll(words) == words
  {
    hide Lower;
    if words != [] { AlreadyLower(words[1..]); }
  }

  ghost predicate IdKeepsName(name: string) {
    forall other :: NormalizeID(other) == NormalizeID(name) ==> NameWords(other) == NameWords(name)
  }

  /** An ID stands for one name only if and only if it has no hyphen between two of
      its characters: "a-b" is also "a b", while "-b" is only itself. */
  lemma IdKeepsNameIff(name: string)
    requires !Blank(name)
    ensures IdKeepsName(name) <==> forall i :: !InnerHyphen(NormalizeID(name), i)
  {
    hide Fields, Trim, Lower, NormalizeID, NameWords, InnerHyphen;
    var id, words := NormalizeID(name), NameWords(name);
    IdJoinsWords(name);
    NoFieldsIffBlank(name);
    JoinIsWord(words);
    if i :| InnerHyphen(id, i) {
      var other := AnotherName(name, id, words, i);
      assert !IdKeepsName(name);
    } else {
      forall other | NormalizeID(other) == id ensures NameWords(other) == words {
        OneWordOnly(words, id);
        IdJoinsWords(other);
        OneWordOnly(NameWords(other), id);
      }
    }
  }

  lemma OneWordOnly(words: seq<string>, id: string)
    requires (forall w :: w in words ==> IsWord(w)) && Join(words, "-") == id && IsWord(id)
    requires forall i :: !InnerHyphen(id, i)
    ensures words == [id]
  {
    hide InnerHyphen;
    if |words| >= 2 { SeveralWordsAreHyphenated(words); }
  }

  lemma AnotherName(name: string, id: string, words: seq<string>, i: int) returns (other: string)
    requires words == NameWords(name) && id == NormalizeID(name) == Join(words, "-") && IsWord(id) && InnerHyphen(id, i)
    ensures NormalizeID(other) == id && NameWords(other) != words
  {
    hide Fields, Trim, Lower, NormalizeID, NameWords;
    IdIsLower(name);
    if |words| >= 2 {
      SpacedName([id]);
      assert Join([id], " ") == id && Join([id], "-") == id;
      other := id;
    } else {
      var u, v := id[..i], id[i + 1..];
      assert id == u + "-" + v;
      LowerParts(id, u, v);
      SpacedName([u, v]);
      assert [u, v][1..] == [v];
      assert Join([u, v], "-") == id;
      other := Join([u, v], " ");
      assert |NameWords(other)| == 2;
    }
  }

  lemma IdIsLower(name: string)
    ensures Lower(NormalizeID(name)) == NormalizeID(name)
  {
    hide Trim, Fields;
    LowerWord(Join(Fields(Trim(name)), "-"));
  }

  lemma LowerParts(id: string, u: string, v: string)
    requires Lower(id) == id && id == u + "-" + v && IsWord(id) && u != "" && v != ""
    ensures Lower(u) == u && Lower(v) == v && IsWord(u) && IsWord(v)
  {
    forall k | 0 <= k < |u| ensures Lower(u)[k] == u[k] && !IsBlank(u[k]) { assert id[k] == u[k] && Lower(id)[k] == id[k]; }
    forall k | 0 <= k < |v| ensures Lower(v)[k] == v[k] && !IsBlank(v[k]) {
      assert id[|u| + 1 + k] == v[k] && Lower(id)[|u| + 1 + k] == id[|u| + 1 + k];
    }
  }

  lemma {:induction false} HyphenFreeWordsSplit(a: seq<string>, b: seq<string>)
    requires forall w :: w in a ==> IsWord(w) && '-' !in w
    requires forall w :: w in b ==> IsWord(w) && '-' !in w
    requires Join(a, "-") == Join(b, "-")
    ensures a == b
  {
    if a == [] || b == [] {
      if a != [] { JoinIsWord(a); }
      if b != [] { JoinIsWord(b); }
    } else if |a| == 1 || |b| == 1 {
      if |a| > 1 { HyphenAppears(a); }
      if |b| > 1 { HyphenAppears(b); }
      assert a[0] in a && b[0] in b;
    } else {
      assert a[0] in a && b[0] in b;
      FirstSeparatorSplits(a[0], Join(a[1..], "-"), b[0], Join(b[1..], "-"), '-');
      HyphenFreeWordsSplit(a[1..], b[1..]);
      assert a == [a[0]] + a[1..] && b == [b[0]] + b[1..];
    }
  }

  lemma HyphenAppears(words: seq<string>)
    requires |words| > 1
    ensures '-' in Join(words, "-")
  {
    var s := Join(words, "-");
    assert s[|words[0]|] == '-';
  }

  /** Among names without hyphens, equal IDs are equal words. */
  lemma HyphenFreeNamesKeepTheirWords(s: string, t: string)
    requires '-' !in s && '-' !in t
    ensures NormalizeID(s) == NormalizeID(t) <==> NameWords(s) == NameWords(t)
  {
    hide Fields, Trim, Lower, NormalizeID;
    IdJoinsWords(s);
    IdJoinsWords(t);
    FieldsHaveNoHyphen(s);
    FieldsHaveNoHyphen(t);
    LowerAllWords(Fields(s));
    LowerAllWords(Fields(t));
    if NormalizeID(s) == NormalizeID(t) { HyphenFreeWordsSplit(NameWords(s), NameWords(t)); }
  }

  lemma {:induction false} FieldsHaveNoHyphen(s: string)
    requires '-' !in s
    ensures forall w :: w in Fields(s) ==> '-' !in w
    decreases |s|
  {
    if s != "" {
      if IsBlank(s[0]) {
        FieldsHaveNoHyphen(s[1..]);
      } else {
        assert Word(s) == s[..|Word(s)|];
        FieldsHaveNoHyphen(s[|Word(s)|..]);
      }
    }
  }
}
