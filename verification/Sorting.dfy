/** Stable sorting by a total preorder, and why its result is the only one:
    the program sorts with library calls, so every fact about a sorted list
    below is derived from these lemmas and not from the sorting algorithm. */
module Sorting {

  ghost predicate TotalPreorder<T(!new)>(le: (T, T) -> bool) {
    && (forall x, y :: le(x, y) || le(y, x))
    && (forall x, y, z :: le(x, y) && le(y, z) ==> le(x, z))
  }

  ghost predicate Sorted<T>(s: seq<T>, le: (T, T) -> bool) {
    forall i, j :: 0 <= i < j < |s| ==> le(s[i], s[j])
  }

  ghost predicate StrictlySorted<T>(s: seq<T>, le: (T, T) -> bool) {
    forall i, j :: 0 <= i < j < |s| ==> le(s[i], s[j]) && !le(s[j], s[i])
  }

  function Insert<T>(x: T, s: seq<T>, le: (T, T) -> bool): seq<T> {
    if s == [] || le(x, s[0]) then [x] + s else [s[0]] + Insert(x, s[1..], le)
  }

  function Sort<T>(s: seq<T>, le: (T, T) -> bool): seq<T> {
    if s == [] then [] else Insert(s[0], Sort(s[1..], le), le)
  }

  lemma {:induction false} InsertPermutes<T>(x: T, s: seq<T>, le: (T, T) -> bool)
    ensures multiset(Insert(x, s, le)) == multiset{x} + multiset(s)
  {
    if s != [] && !le(x, s[0]) {
      InsertPermutes(x, s[1..], le);
      assert s == [s[0]] + s[1..];
    }
  }

  lemma {:induction false} SortPermutes<T>(s: seq<T>, le: (T, T) -> bool)
    ensures multiset(Sort(s, le)) == multiset(s)
    ensures |Sort(s, le)| == |s|
    ensures forall x :: x in Sort(s, le) <==> x in s
  {
    if s != [] {
      SortPermutes(s[1..], le);
      InsertPermutes(s[0], Sort(s[1..], le), le);
      assert s == [s[0]] + s[1..];
    }
    var t := Sort(s, le);
    assert |t| == |multiset(t)| == |multiset(s)| == |s|;
    assert forall x :: x in t <==> x in multiset(t);
    assert forall x :: x in s <==> x in multiset(s);
  }

  lemma Transitive<T(!new)>(x: T, y: T, z: T, le: (T, T) -> bool)
    requires TotalPreorder(le) && le(x, y) && le(y, z)
    ensures le(x, z)
  {}

  lemma Total<T(!new)>(x: T, y: T, le: (T, T) -> bool)
    requires TotalPreorder(le)
    ensures le(x, y) || le(y, x)
  {}

  lemma InsertMember<T>(x: T, s: seq<T>, le: (T, T) -> bool, y: T)
    requires y in Insert(x, s, le)
    ensures y == x || y in s
  {
    InsertPermutes(x, s, le);
    assert y in multiset(Insert(x, s, le));
  }

  lemma ConsSorted<T(!new)>(x: T, s: seq<T>, le: (T, T) -> bool)
    requires Sorted(s, le) && forall i :: 0 <= i < |s| ==> le(x, s[i])
    ensures Sorted([x] + s, le)
  {
    var t := [x] + s;
    forall i, j | 0 <= i < j < |t| ensures le(t[i], t[j]) {
      assert t[j] == s[j - 1];
      if i > 0 { assert t[i] == s[i - 1]; }
    }
  }

  lemma {:induction false} InsertKeepsSorted<T(!new)>(x: T, s: seq<T>, le: (T, T) -> bool)
    requires TotalPreorder(le) && Sorted(s, le)
    ensures Sorted(Insert(x, s, le), le)
  {
    hide TotalPreorder;
    if s == [] {
    } else if le(x, s[0]) {
      forall i | 0 <= i < |s| ensures le(x, s[i]) {
        if i > 0 { Transitive(x, s[0], s[i], le); }
      }
      ConsSorted(x, s, le);
    } else {
      Total(x, s[0], le);
      InsertKeepsSorted(x, s[1..], le);
      var tail := Insert(x, s[1..], le);
      forall i | 0 <= i < |tail| ensures le(s[0], tail[i]) {
        InsertMember(x, s[1..], le, tail[i]);
      }
      ConsSorted(s[0], tail, le);
    }
  }

  lemma {:induction false} SortIsSorted<T(!new)>(s: seq<T>, le: (T, T) -> bool)
    requires TotalPreorder(le)
    ensures Sorted(Sort(s, le), le)
  {
    if s != [] {
      SortIsSorted(s[1..], le);
      InsertKeepsSorted(s[0], Sort(s[1..], le), le);
    }
  }

  /** Two lists in strict order with the same elements are the same list. */
  lemma {:induction false} StrictOrderIsUnique<T>(a: seq<T>, b: seq<T>, le: (T, T) -> bool)
    requires StrictlySorted(a, le) && StrictlySorted(b, le)
    requires forall x :: x in a <==> x in b
    ensures a == b
    decreases |a|
  {
    assert b != [] ==> b[0] in b;
    if a == [] { return; }
    assert a[0] in b && b[0] in a;
    var i :| 0 <= i < |b| && b[i] == a[0];
    var j :| 0 <= j < |a| && a[j] == b[0];
    assert a[0] == b[0];
    forall x ensures x in a[1..] <==> x in b[1..] {
      if x in a[1..] {
        assert x in b;
        var k :| 1 <= k < |a| && a[k] == x;
        var l :| 0 <= l < |b| && b[l] == x;
        assert l != 0;
        assert b[1..][l - 1] == x;
      }
      if x in b[1..] {
        assert x in a;
        var k :| 1 <= k < |b| && b[k] == x;
        var l :| 0 <= l < |a| && a[l] == x;
        assert l != 0;
        assert a[1..][l - 1] == x;
      }
    }
    StrictOrderIsUnique(a[1..], b[1..], le);
    assert a == [a[0]] + a[1..] && b == [b[0]] + b[1..];
  }

  ghost predicate Ties<T>(x: T, y: T, le: (T, T) -> bool) {
    le(x, y) && le(y, x)
  }

  lemma {:induction false} InsertKeepsStrict<T(!new)>(x: T, s: seq<T>, le: (T, T) -> bool)
    requires TotalPreorder(le) && StrictlySorted(s, le)
    requires forall y :: y in s ==> !Ties(x, y, le)
    ensures StrictlySorted(Insert(x, s, le), le)
  {
    hide TotalPreorder;
    if s == [] {
    } else if le(x, s[0]) {
      forall i | 0 <= i < |s| ensures le(x, s[i]) && !le(s[i], x) {
        if i > 0 { Transitive(x, s[0], s[i], le); }
        assert s[i] in s;
      }
      ConsStrict(x, s, le);
    } else {
      Total(x, s[0], le);
      InsertKeepsStrict(x, s[1..], le);
      var tail := Insert(x, s[1..], le);
      forall i | 0 <= i < |tail| ensures le(s[0], tail[i]) && !le(tail[i], s[0]) {
        InsertMember(x, s[1..], le, tail[i]);
      }
      ConsStrict(s[0], tail, le);
    }
  }

  lemma ConsStrict<T(!new)>(x: T, s: seq<T>, le: (T, T) -> bool)
    requires StrictlySorted(s, le) && forall i :: 0 <= i < |s| ==> le(x, s[i]) && !le(s[i], x)
    ensures StrictlySorted([x] + s, le)
  {
    var t := [x] + s;
    forall i, j | 0 <= i < j < |t| ensures le(t[i], t[j]) && !le(t[j], t[i]) {
      assert t[j] == s[j - 1];
      if i > 0 { assert t[i] == s[i - 1]; }
    }
  }

  /** Elements no two of which tie sort into strict order. */
  lemma {:induction false} SortIsStrict<T(!new)>(s: seq<T>, le: (T, T) -> bool)
    requires TotalPreorder(le)
    requires forall i, j :: 0 <= i < j < |s| ==> !Ties(s[i], s[j], le)
    ensures StrictlySorted(Sort(s, le), le)
  {
    if s != [] {
      SortIsStrict(s[1..], le);
      SortPermutes(s[1..], le);
      forall y | y in Sort(s[1..], le) ensures !Ties(s[0], y, le) {
        assert y in s[1..];
      }
      InsertKeepsStrict(s[0], Sort(s[1..], le), le);
    }
  }

  lemma {:induction false} DistinctOnce<T>(s: seq<T>, x: T)
    requires forall i, j :: 0 <= i < j < |s| ==> s[i] != s[j]
    ensures multiset(s)[x] <= 1
  {
    if s != [] {
      var n := |s| - 1;
      DistinctOnce(s[..n], x);
      assert s == s[..n] + [s[n]];
      assert x == s[n] ==> x !in s[..n];
      assert x in multiset(s[..n]) <==> x in s[..n];
    }
  }

  lemma RepeatedTwice<T>(s: seq<T>, i: nat, j: nat)
    requires i < j < |s| && s[i] == s[j]
    ensures multiset(s)[s[i]] >= 2
  {
    assert s == s[..j] + s[j..];
    assert s[..j][i] == s[i] && s[j..][0] == s[j];
    assert s[i] in multiset(s[..j]) && s[j] in multiset(s[j..]);
  }

  function Filter<T>(s: seq<T>, keep: T -> bool): seq<T> {
    if s == [] then [] else (if keep(s[0]) then [s[0]] else []) + Filter(s[1..], keep)
  }

  lemma FilterNothing<T>(keep: T -> bool)
    ensures Filter([], keep) == []
  {}

  lemma FilterHead<T>(s: seq<T>, keep: T -> bool)
    requires s != []
    ensures Filter(s, keep) == (if keep(s[0]) then [s[0]] else []) + Filter(s[1..], keep)
  {}

  lemma {:induction false} FilterSplits<T>(a: seq<T>, b: seq<T>, keep: T -> bool)
    ensures Filter(a + b, keep) == Filter(a, keep) + Filter(b, keep)
  {
    hide Filter;
    if a == [] {
      assert a + b == b;
      FilterNothing(keep);
    } else {
      FilterSplits(a[1..], b, keep);
      FilterHead(a, keep);
      FilterHead(a + b, keep);
      assert (a + b)[1..] == a[1..] + b;
      var first := if keep(a[0]) then [a[0]] else [];
      assert first + (Filter(a[1..], keep) + Filter(b, keep)) == first + Filter(a[1..], keep) + Filter(b, keep);
    }
  }

  /** Stability: the elements tied with any given one keep their order. */
  lemma {:induction false} SortIsStable<T(!new)>(s: seq<T>, le: (T, T) -> bool, keep: T -> bool)
    requires AllTie(le, keep)
    ensures Filter(Sort(s, le), keep) == Filter(s, keep)
  {
    hide AllTie;
    if s != [] {
      SortIsStable(s[1..], le, keep);
      InsertKeepsTies(s[0], Sort(s[1..], le), le, keep);
    }
  }

  ghost predicate AllTie<T(!new)>(le: (T, T) -> bool, keep: T -> bool) {
    forall x, y :: keep(x) && keep(y) ==> le(x, y)
  }

  lemma TiedIsLe<T(!new)>(x: T, y: T, le: (T, T) -> bool, keep: T -> bool)
    requires AllTie(le, keep) && keep(x) && keep(y)
    ensures le(x, y)
  {}

  lemma InsertUnfolds<T>(x: T, s: seq<T>, le: (T, T) -> bool)
    ensures Insert(x, s, le) == if s == [] || le(x, s[0]) then [x] + s else [s[0]] + Insert(x, s[1..], le)
  {}

  lemma {:induction false} InsertKeepsTies<T(!new)>(x: T, s: seq<T>, le: (T, T) -> bool, keep: T -> bool)
    requires AllTie(le, keep)
    ensures Filter(Insert(x, s, le), keep) == (if keep(x) then [x] else []) + Filter(s, keep)
  {
    hide AllTie, Filter, Insert;
    var t := Insert(x, s, le);
    InsertUnfolds(x, s, le);
    FilterHead(t, keep);
    if s == [] || le(x, s[0]) {
      assert t[1..] == s;
    } else {
      InsertKeepsTies(x, s[1..], le, keep);
      if keep(x) && keep(s[0]) { TiedIsLe(x, s[0], le, keep); }
      FilterHead(s, keep);
      assert t[0] == s[0] && t[1..] == Insert(x, s[1..], le);
      var first, rest := if keep(x) then [x] else [], Filter(s[1..], keep);
      assert !(keep(x) && keep(s[0]));
      if !keep(x) {
        assert first + rest == rest;
      } else {
        assert [] + (first + rest) == first + rest && [] + rest == rest;
      }
    }
  }
}
