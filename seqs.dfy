/** Sequence helpers for JavaScript's `Array.prototype.filter` and for
    `new Set(...)` de-duplication, with the facts the models rely on. */
module Seqs {

  /** `r` can be obtained from `s` by deleting elements, keeping order. */
  predicate IsSubsequence<T(==)>(r: seq<T>, s: seq<T>)
    decreases |s|
  {
    if r == [] then true
    else if s == [] then false
    else if r[0] == s[0] then IsSubsequence(r[1..], s[1..])
    else IsSubsequence(r, s[1..])
  }

  /** Every sequence is a subsequence of itself. */
  lemma {:induction false} SubsequenceReflexive<T>(s: seq<T>)
    ensures IsSubsequence(s, s)
  {
    if s != [] {
      SubsequenceReflexive(s[1..]);
    }
  }

  /** Dropping the first element of `r` keeps it a subsequence of `s`. */
  lemma {:induction false} SubsequenceDropHead<T>(r: seq<T>, s: seq<T>)
    requires r != [] && IsSubsequence(r, s)
    ensures IsSubsequence(r[1..], s)
    decreases |s|, 1
  {
    if r[0] != s[0] {
      SubsequenceDropHead(r, s[1..]);
    }
    SubsequenceSkip(r[1..], s[1..], s[0]);
    assert [s[0]] + s[1..] == s;
  }

  /** Putting an extra element in front of `s` keeps `r` a subsequence. */
  lemma {:induction false} SubsequenceSkip<T>(r: seq<T>, s: seq<T>, x: T)
    requires IsSubsequence(r, s)
    ensures IsSubsequence(r, [x] + s)
    decreases |s| + 1, 0
  {
    assert ([x] + s)[1..] == s;
    if r != [] && r[0] == x {
      SubsequenceDropHead(r, s);
    }
  }

  /** `Array.prototype.filter`: the elements of `s` satisfying `p`, in order. */
  function Filter<T(!new)>(s: seq<T>, p: T -> bool): (r: seq<T>)
    ensures |r| <= |s|
    ensures forall i :: 0 <= i < |r| ==> r[i] in s && p(r[i])
    ensures forall i :: 0 <= i < |s| && p(s[i]) ==> s[i] in r
    ensures IsSubsequence(r, s)
  {
    if s == [] then []
    else
      var rest := Filter(s[1..], p);
      if p(s[0]) then
        assert ([s[0]] + rest)[1..] == rest;
        [s[0]] + rest
      else
        SubsequenceSkip(rest, s[1..], s[0]);
        assert [s[0]] + s[1..] == s;
        rest
  }

  /** `filter` keeps every copy of an element that satisfies `p` and no
      copy of one that does not. */
  lemma {:induction false} FilterCounts<T(!new)>(s: seq<T>, p: T -> bool)
    ensures forall x :: multiset(Filter(s, p))[x] == if p(x) then multiset(s)[x] else 0
  {
    if s != [] {
      FilterCounts(s[1..], p);
      assert s == [s[0]] + s[1..];
      assert multiset(s) == multiset{s[0]} + multiset(s[1..]);
      if p(s[0]) {
        assert multiset(Filter(s, p)) == multiset{s[0]} + multiset(Filter(s[1..], p));
      }
    }
  }

  /** Filtering with a predicate every element satisfies is the identity. */
  lemma {:induction false} FilterAll<T(!new)>(s: seq<T>, p: T -> bool)
    requires forall i :: 0 <= i < |s| ==> p(s[i])
    ensures Filter(s, p) == s
  {
    if s != [] {
      FilterAll(s[1..], p);
    }
  }

  /** Filtering with a predicate no element satisfies gives the empty list. */
  lemma FilterNone<T(!new)>(s: seq<T>, p: T -> bool)
    requires forall i :: 0 <= i < |s| ==> !p(s[i])
    ensures Filter(s, p) == []
  {
  }

  /** Filtering distributes over concatenation. */
  lemma {:induction false} FilterConcat<T(!new)>(a: seq<T>, b: seq<T>, p: T -> bool)
    ensures Filter(a + b, p) == Filter(a, p) + Filter(b, p)
  {
    if a != [] {
      assert (a + b)[1..] == a[1..] + b;
      FilterConcat(a[1..], b, p);
    } else {
      assert a + b == b;
    }
  }

  /** A weaker predicate keeps at least as many elements. */
  lemma {:induction false} FilterMonotone<T(!new)>(s: seq<T>, p: T -> bool, q: T -> bool)
    requires forall i :: 0 <= i < |s| && p(s[i]) ==> q(s[i])
    ensures |Filter(s, p)| <= |Filter(s, q)|
  {
    if s != [] {
      FilterMonotone(s[1..], p, q);
    }
  }

  /** Two predicates no element satisfies together keep at most |s| elements
      between them. */
  lemma {:induction false} FilterDisjoint<T(!new)>(s: seq<T>, p: T -> bool, q: T -> bool)
    requires forall i :: 0 <= i < |s| ==> !(p(s[i]) && q(s[i]))
    ensures |Filter(s, p)| + |Filter(s, q)| <= |s|
  {
    if s != [] {
      FilterDisjoint(s[1..], p, q);
    }
  }

  predicate NoDuplicates<T(==)>(s: seq<T>) {
    forall i, j :: 0 <= i < j < |s| ==> s[i] != s[j]
  }

  /** The index of the first occurrence of `x` in `s`. */
  function IndexOf<T(==)>(s: seq<T>, x: T): (k: nat)
    requires x in s
    ensures k < |s| && s[k] == x
    ensures forall j :: 0 <= j < k ==> s[j] != x
  {
    if s[0] == x then 0 else 1 + IndexOf(s[1..], x)
  }

  /** `[...new Set(s)]`: the distinct elements of `s`, in the order in which
      each first occurs. */
  function Dedup<T(==)>(s: seq<T>): (r: seq<T>)
    ensures NoDuplicates(r)
    ensures forall i :: 0 <= i < |r| ==> r[i] in s
    ensures forall i :: 0 <= i < |s| ==> s[i] in r
  {
    if s == [] then []
    else
      var d := Dedup(s[..|s| - 1]);
      if s[|s| - 1] in d then d else d + [s[|s| - 1]]
  }

  /** De-duplication keeps the first element first. */
  lemma {:induction false} DedupKeepsHead<T>(s: seq<T>)
    requires |s| > 0
    ensures |Dedup(s)| > 0 && Dedup(s)[0] == s[0]
  {
    if |s| > 1 {
      DedupKeepsHead(s[..|s| - 1]);
    }
  }

  /** The de-duplicated elements appear in the order of their first
      occurrences in the input. */
  lemma {:induction false} DedupFirstOccurrenceOrder<T>(s: seq<T>)
    ensures forall i, j :: 0 <= i < j < |Dedup(s)| ==> IndexOf(s, Dedup(s)[i]) < IndexOf(s, Dedup(s)[j])
  {
    if s != [] {
      var init := s[..|s| - 1];
      var x := s[|s| - 1];
      var d := Dedup(init);
      DedupFirstOccurrenceOrder(init);
      forall y | y in init ensures IndexOf(s, y) == IndexOf(init, y) {
        IndexOfPrefix(init, s, y);
      }
      if x !in d {
        assert x !in init;
        assert IndexOf(s, x) == |s| - 1;
        assert Dedup(s) == d + [x];
      }
    }
  }

  /** Filtering keeps the order of first occurrences. */
  lemma {:induction false} FilterKeepsFirstOccurrenceOrder<T(!new)>(s: seq<T>, p: T -> bool, x: T, y: T)
    requires x in Filter(s, p) && y in Filter(s, p)
    requires IndexOf(Filter(s, p), x) < IndexOf(Filter(s, p), y)
    ensures x in s && y in s && IndexOf(s, x) < IndexOf(s, y)
  {
    var f := Filter(s, p);
    var t := s[1..];
    var ft := Filter(t, p);
    if p(s[0]) {
      assert f == [s[0]] + ft;
      if x != s[0] {
        assert y != s[0];
        assert IndexOf(f, x) == 1 + IndexOf(ft, x);
        assert IndexOf(f, y) == 1 + IndexOf(ft, y);
        FilterKeepsFirstOccurrenceOrder(t, p, x, y);
      }
    } else {
      assert f == ft;
      assert p(x) && p(y);
      FilterKeepsFirstOccurrenceOrder(t, p, x, y);
    }
  }

  /** `[...new Set(s.filter(p))]` lists the kept elements in the order of
      their first occurrences in `s`. */
  lemma DedupFilterOrder<T(!new)>(s: seq<T>, p: T -> bool)
    ensures forall i, j :: 0 <= i < j < |Dedup(Filter(s, p))| ==>
      && Dedup(Filter(s, p))[i] in s && Dedup(Filter(s, p))[j] in s
      && IndexOf(s, Dedup(Filter(s, p))[i]) < IndexOf(s, Dedup(Filter(s, p))[j])
  {
    var f := Filter(s, p);
    var r := Dedup(f);
    DedupFirstOccurrenceOrder(f);
    forall i, j | 0 <= i < j < |r|
      ensures r[i] in s && r[j] in s && IndexOf(s, r[i]) < IndexOf(s, r[j])
    {
      FilterKeepsFirstOccurrenceOrder(s, p, r[i], r[j]);
    }
  }

  lemma {:induction false} IndexOfPrefix<T>(init: seq<T>, s: seq<T>, y: T)
    requires |init| <= |s| && init == s[..|init|] && y in init
    ensures IndexOf(s, y) == IndexOf(init, y)
  {
    if s[0] != y {
      IndexOfPrefix(init[1..], s[1..], y);
    }
  }
}
