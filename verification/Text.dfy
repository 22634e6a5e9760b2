/** Text normalisation: splitting on blanks, the canonical single-spaced form,
    identifiers, and the sorted duplicate-free lists that feed the digests. */
module Text {
  import opened Sorting

  predicate IsBlank(c: char) {
    || c == ' ' || '\t' <= c <= '\r' || c == '\U{85}' || c == '\U{A0}'
    || c == '\U{1680}' || '\U{2000}' <= c <= '\U{200A}' || c == '\U{2028}' || c == '\U{2029}'
    || c == '\U{202F}' || c == '\U{205F}' || c == '\U{3000}'
  }

  predicate Blank(s: string) {
    forall i :: 0 <= i < |s| ==> IsBlank(s[i])
  }

  predicate IsWord(s: string) {
    s != "" && forall i :: 0 <= i < |s| ==> !IsBlank(s[i])
  }

  function TrimLeft(s: string): string {
    if s != "" && IsBlank(s[0]) then TrimLeft(s[1..]) else s
  }

  function TrimRight(s: string): string {
    if s != "" && IsBlank(s[|s| - 1]) then TrimRight(s[..|s| - 1]) else s
  }

  function Trim(s: string): string {
    TrimRight(TrimLeft(s))
  }

  /** The longest blank-free prefix. */
  function Word(s: string): (w: string)
    ensures |w| <= |s| && w == s[..|w|]
    ensures forall i :: 0 <= i < |w| ==> !IsBlank(w[i])
    ensures |w| < |s| ==> IsBlank(s[|w|])
  {
    if s == "" || IsBlank(s[0]) then "" else [s[0]] + Word(s[1..])
  }

  function Fields(s: string): (words: seq<string>)
    ensures forall w :: w in words ==> IsWord(w)
    decreases |s|
  {
    if s == "" then []
    else if IsBlank(s[0]) then Fields(s[1..])
    else [Word(s)] + Fields(s[|Word(s)|..])
  }

  function Join(words: seq<string>, separator: string): string {
    if words == [] then ""
    else if |words| == 1 then words[0]
    else words[0] + separator + Join(words[1..], separator)
  }

  function NormalizeText(s: string): string {
    Join(Fields(Trim(s)), " ")
  }

  function LowerChar(c: char): char {
    if 'A' <= c <= 'Z' then c - 'A' + 'a' else c
  }

  function Lower(s: string): (r: string)
    ensures |r| == |s| && forall i :: 0 <= i < |s| ==> r[i] == LowerChar(s[i])
  {
    seq(|s|, i requires 0 <= i < |s| => LowerChar(s[i]))
  }

  function NormalizeID(s: string): string {
    Lower(Join(Fields(Trim(s)), "-"))
  }

  // Splitting, joining and trimming

  lemma {:induction false} WordOfConcat(w: string, rest: string)
    requires IsWord(w) && (rest == "" || IsBlank(rest[0]))
    ensures Word(w + rest) == w
  {
    assert (w + rest)[1..] == w[1..] + rest;
    if |w| > 1 { WordOfConcat(w[1..], rest); }
  }

  /** Splitting a single-spaced line gives back the words it was joined from. */
  lemma {:induction false} FieldsOfJoin(words: seq<string>)
    requires forall w :: w in words ==> IsWord(w)
    ensures Fields(Join(words, " ")) == words
  {
    if |words| == 1 {
      WordOfConcat(words[0], "");
      assert words[0] + "" == words[0];
    } else if words != [] {
      var rest := " " + Join(words[1..], " ");
      FieldsOfJoin(words[1..]);
      WordOfConcat(words[0], rest);
      assert Join(words, " ") == words[0] + rest;
      assert (words[0] + rest)[|words[0]|..] == rest;
      assert rest[1..] == Join(words[1..], " ");
    }
  }

  lemma {:induction false} FieldsTrimLeft(s: string)
    ensures Fields(TrimLeft(s)) == Fields(s)
  {
    if s != "" && IsBlank(s[0]) { FieldsTrimLeft(s[1..]); }
  }

  lemma {:induction false} FieldsDropLastBlank(s: string, c: char)
    requires IsBlank(c)
    ensures Fields(s + [c]) == Fields(s)
    decreases |s|
  {
    if s == "" {
      assert (s + [c])[1..] == "";
    } else if IsBlank(s[0]) {
      assert (s + [c])[1..] == s[1..] + [c];
      FieldsDropLastBlank(s[1..], c);
    } else {
      var w := Word(s);
      var tail := s[|w|..];
      assert s == w + tail;
      assert s + [c] == w + (tail + [c]);
      WordOfConcat(w, tail + [c]);
      assert (s + [c])[|w|..] == tail + [c];
      FieldsDropLastBlank(tail, c);
    }
  }

  lemma {:induction false} FieldsTrimRight(s: string)
    ensures Fields(TrimRight(s)) == Fields(s)
  {
    if s != "" && IsBlank(s[|s| - 1]) {
      FieldsTrimRight(s[..|s| - 1]);
      FieldsDropLastBlank(s[..|s| - 1], s[|s| - 1]);
      assert s == s[..|s| - 1] + [s[|s| - 1]];
    }
  }

  /** Trimming first never changes the words, so a text is known by its words. */
  lemma FieldsTrim(s: string)
    ensures Fields(Trim(s)) == Fields(s)
  {
    FieldsTrimLeft(s);
    FieldsTrimRight(TrimLeft(s));
  }

  /** normalizeText forgets exactly the spacing: two texts have the same normal
      form if and only if they have the same words, and it is idempotent. */
  lemma NormalizeTextIsCanonical(s: string, t: string)
    ensures NormalizeText(s) == NormalizeText(t) <==> Fields(s) == Fields(t)
    ensures NormalizeText(NormalizeText(s)) == NormalizeText(s)
  {
    FieldsTrim(s); FieldsTrim(t);
    FieldsOfJoin(Fields(s)); FieldsOfJoin(Fields(t));
    FieldsTrim(NormalizeText(s));
  }

  lemma {:induction false} NoFieldsIffBlank(s: string)
    ensures Fields(s) == [] <==> Blank(s)
    decreases |s|
  {
    if s != "" {
      if IsBlank(s[0]) {
        NoFieldsIffBlank(s[1..]);
        assert s == [s[0]] + s[1..];
      }
    }
  }

  lemma NormalizeTextEmptyIffBlank(s: string)
    ensures NormalizeText(s) == "" <==> Blank(s)
  {
    NoFieldsIffBlank(s);
    FieldsTrim(s);
    FieldsOfJoin(Fields(s));
  }

  lemma NormalizeIDEmptyIffBlank(s: string)
    ensures NormalizeID(s) == "" <==> Blank(s)
  {
    NoFieldsIffBlank(s);
    FieldsTrim(s);
    var words := Fields(s);
    if words != [] {
      assert words[0] in words;
      assert |Join(words, "-")| >= |words[0]| > 0;
    }
  }

  lemma {:induction false} TrimIdempotent(s: string)
    ensures Trim(Trim(s)) == Trim(s)
    ensures Trim(s) == "" <==> Blank(s)
  {
    TrimLeftEnds(s);
    TrimRightEnds(TrimLeft(s));
  }

  lemma {:induction false} TrimLeftEnds(s: string)
    ensures TrimLeft(s) == "" || !IsBlank(TrimLeft(s)[0])
    ensures TrimLeft(s) == "" <==> Blank(s)
  {
    if s != "" {
      TrimLeftEnds(s[1..]);
      assert s == [s[0]] + s[1..];
    }
  }

  lemma {:induction false} TrimRightEnds(s: string)
    ensures TrimRight(s) == "" || !IsBlank(TrimRight(s)[|TrimRight(s)| - 1])
    ensures s != "" && !IsBlank(s[0]) ==> TrimRight(s) != ""
    ensures TrimRight(s) != "" ==> s != "" && TrimRight(s)[0] == s[0]
  {
    if s != "" { TrimRightEnds(s[..|s| - 1]); }
  }

  /** Where the separator is in neither head, a joined text splits at its first one. */
  lemma {:induction false} FirstSeparatorSplits(a: string, x: string, b: string, y: string, c: char)
    requires c !in a && c !in b && a + [c] + x == b + [c] + y
    ensures a == b && x == y
  {
    assert a != "" ==> a[0] in a;
    assert b != "" ==> b[0] in b;
    var s := a + [c] + x;
    assert s[0] == (b + [c] + y)[0] && s[1..] == (b + [c] + y)[1..];
    if a != "" && b != "" {
      assert s[1..] == a[1..] + [c] + x;
      assert (b + [c] + y)[1..] == b[1..] + [c] + y;
      FirstSeparatorSplits(a[1..], x, b[1..], y, c);
      assert a == [a[0]] + a[1..] && b == [b[0]] + b[1..];
    } else {
      assert a == b == "";
      assert s[1..] == x && (b + [c] + y)[1..] == y;
    }
  }

  // The order of sort.Strings

  function LexLe(a: string, b: string): bool {
    a == "" || (b != "" && (a[0] < b[0] || (a[0] == b[0] && LexLe(a[1..], b[1..]))))
  }

  lemma {:induction false} LexTotal(a: string, b: string)
    ensures LexLe(a, b) || LexLe(b, a)
  {
    if a != "" && b != "" { LexTotal(a[1..], b[1..]); }
  }

  lemma {:induction false} LexTransitive(a: string, b: string, c: string)
    requires LexLe(a, b) && LexLe(b, c)
    ensures LexLe(a, c)
  {
    if a != "" && b[0] == a[0] && c[0] == b[0] { LexTransitive(a[1..], b[1..], c[1..]); }
  }

  lemma {:induction false} LexAntisymmetric(a: string, b: string)
    requires LexLe(a, b) && LexLe(b, a)
    ensures a == b
  {
    if a != "" {
      LexAntisymmetric(a[1..], b[1..]);
      assert a == [a[0]] + a[1..] && b == [b[0]] + b[1..];
    }
  }

  const LEX: (string, string) -> bool := (a: string, b: string) => LexLe(a, b)

  lemma LexIsOrder()
    ensures TotalPreorder(LEX)
  {
    forall a: string, b: string ensures LEX(a, b) || LEX(b, a) { LexTotal(a, b); }
    forall a: string, b: string, c: string | LEX(a, b) && LEX(b, c) ensures LEX(a, c) { LexTransitive(a, b, c); }
  }

  // Canonical lists

  /** What the loop has kept of the values read so far. */
  function Distinct(values: seq<string>): seq<string> {
    if values == [] then []
    else
      var kept := Distinct(values[..|values| - 1]);
      var value := NormalizeText(values[|values| - 1]);
      if value == "" || value in kept then kept else kept + [value]
  }

  function CanonicalStrings(values: seq<string>): seq<string> {
    Sort(Distinct(values), LEX)
  }

  method NormalizeStrings(values: seq<string>) returns (result: seq<string>)
    ensures result == CanonicalStrings(values)
  {
    var seen: set<string> := {};
    result := [];
    for i := 0 to |values|
      invariant result == Distinct(values[..i])
      invariant seen == set w | w in result
    {
      assert values[..i + 1][..i] == values[..i];
      var value := NormalizeText(values[i]);
      if value == "" || value in seen { continue; }
      seen := seen + {value};
      result := result + [value];
    }
    assert values[..|values|] == values;
    result := Sort(result, LEX);
  }

  ghost function NonBlankTexts(values: seq<string>): set<string> {
    set v | v in values && !Blank(v) :: NormalizeText(v)
  }

  lemma {:induction false} DistinctMembers(values: seq<string>)
    ensures forall w :: w in Distinct(values) <==> w in NonBlankTexts(values)
    ensures forall i, j :: 0 <= i < j < |Distinct(values)| ==> Distinct(values)[i] != Distinct(values)[j]
  {
    if values != [] {
      var n := |values| - 1;
      DistinctMembers(values[..n]);
      NormalizeTextEmptyIffBlank(values[n]);
      assert values == values[..n] + [values[n]];
      if !Blank(values[n]) {
        assert NormalizeText(values[n]) in NonBlankTexts(values);
      }
      forall w | w in NonBlankTexts(values) ensures w in Distinct(values) {
        var v :| v in values && !Blank(v) && NormalizeText(v) == w;
        if v in values[..n] { assert w in NonBlankTexts(values[..n]); }
      }
      forall w | w in Distinct(values[..n]) ensures w in NonBlankTexts(values) {
        var v :| v in values[..n] && !Blank(v) && NormalizeText(v) == w;
        assert v in values;
      }
    }
  }

  /** normalizeStrings lists exactly the normal forms of the non-blank values,
      in strictly increasing order. */
  lemma CanonicalStringsListsTexts(values: seq<string>)
    ensures StrictlySorted(CanonicalStrings(values), LEX)
    ensures forall w :: w in CanonicalStrings(values) <==> w in NonBlankTexts(values)
  {
    var kept := Distinct(values);
    DistinctMembers(values);
    LexIsOrder();
    forall i, j | 0 <= i < j < |kept| ensures !Ties(kept[i], kept[j], LEX) {
      if Ties(kept[i], kept[j], LEX) { LexAntisymmetric(kept[i], kept[j]); }
    }
    SortIsStrict(kept, LEX);
    SortPermutes(kept, LEX);
  }

  /** A canonical form: equal lists if and only if equal sets of non-blank texts. */
  lemma CanonicalStringsEqualIffSameTexts(a: seq<string>, b: seq<string>)
    ensures CanonicalStrings(a) == CanonicalStrings(b) <==> NonBlankTexts(a) == NonBlankTexts(b)
  {
    CanonicalStringsListsTexts(a);
    CanonicalStringsListsTexts(b);
    var x, y := CanonicalStrings(a), CanonicalStrings(b);
    if NonBlankTexts(a) == NonBlankTexts(b) { StrictOrderIsUnique(x, y, LEX); }
    if x == y {
      assert forall w :: w in NonBlankTexts(a) <==> w in x;
      assert forall w :: w in NonBlankTexts(b) <==> w in x;
    }
  }

  lemma CanonicalStringsIdempotent(values: seq<string>)
    ensures CanonicalStrings(CanonicalStrings(values)) == CanonicalStrings(values)
  {
    var c := CanonicalStrings(values);
    CanonicalStringsListsTexts(values);
    forall v | v in c ensures NormalizeText(v) == v && !Blank(v) {
      var u :| u in values && !Blank(u) && NormalizeText(u) == v;
      NormalizeTextIsCanonical(u, u);
      NormalizeTextEmptyIffBlank(u);
      NormalizeTextEmptyIffBlank(v);
    }
    forall w | w in c ensures w in NonBlankTexts(c) {
      assert NormalizeText(w) == w;
    }
    assert NonBlankTexts(c) == NonBlankTexts(values);
    CanonicalStringsEqualIffSameTexts(c, values);
  }
}
