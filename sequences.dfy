/**
 * Order and filtering over sequences of records. The catalogue keeps its
 * records in insertion order; the orderings and filters the API applies are
 * stated here once, generically in the record type and its sort key.
 */
module Sequences {
  /** Keys strictly increase along `s` (oldest first). */
  predicate Ascending<T>(s: seq<T>, key: T -> int) {
    forall i, j :: 0 <= i < j < |s| ==> key(s[i]) < key(s[j])
  }

  /** Keys strictly decrease along `s` (newest first). */
  predicate Descending<T>(s: seq<T>, key: T -> int) {
    forall i, j :: 0 <= i < j < |s| ==> key(s[i]) > key(s[j])
  }

  function Reverse<T>(s: seq<T>): (r: seq<T>)
    ensures |r| == |s|
    ensures forall i :: 0 <= i < |s| ==> r[i] == s[|s| - 1 - i]
  {
    if s == [] then [] else [s[|s| - 1]] + Reverse(s[..|s| - 1])
  }

  lemma {:induction false} ReverseSameElements<T>(s: seq<T>)
    ensures multiset(Reverse(s)) == multiset(s)
  {
    if s != [] {
      var init := s[..|s| - 1];
      ReverseSameElements(init);
      assert s == init + [s[|s| - 1]];
    }
  }

  /** Reversing a list sorted oldest first sorts it newest first, keeping every element. */
  lemma {:induction false} ReverseIsNewestFirst<T>(s: seq<T>, key: T -> int)
    requires Ascending(s, key)
    ensures Descending(Reverse(s), key)
    ensures multiset(Reverse(s)) == multiset(s)
  {
    ReverseSameElements(s);
  }

  /** In a newest-first list the head is the newest element, and the only one that new. */
  lemma {:induction false} HeadIsNewest<T>(s: seq<T>, key: T -> int, x: T)
    requires Descending(s, key) && x in s
    ensures key(x) <= key(s[0])
    ensures key(x) == key(s[0]) ==> x == s[0]
  {
    var k :| 0 <= k < |s| && s[k] == x;
  }

  /**
   * There is only one way to list a collection newest first when keys are
   * strictly ordered: any two such listings of the same elements are equal.
   */
  lemma {:induction false} DescendingUnique<T>(s: seq<T>, t: seq<T>, key: T -> int)
    requires Descending(s, key) && Descending(t, key)
    requires multiset(s) == multiset(t)
    ensures s == t
  {
    SameLength(s, t);
    if s != [] {
      HeadsAgree(s, t, key);
      DescendingUnique(s[1..], t[1..], key);
      assert s == [s[0]] + s[1..] && t == [t[0]] + t[1..];
    }
  }

  lemma {:induction false} SameLength<T>(s: seq<T>, t: seq<T>)
    requires multiset(s) == multiset(t)
    ensures |s| == |t|
  {
    assert |s| == |multiset(s)| && |t| == |multiset(t)|;
  }

  /** Two non-empty newest-first listings of the same elements start alike and go on alike. */
  lemma {:induction false} HeadsAgree<T>(s: seq<T>, t: seq<T>, key: T -> int)
    requires s != [] && t != []
    requires Descending(s, key) && Descending(t, key)
    requires multiset(s) == multiset(t)
    ensures s[0] == t[0]
    ensures Descending(s[1..], key) && Descending(t[1..], key)
    ensures multiset(s[1..]) == multiset(t[1..])
  {
    assert s[0] in multiset(t) && t[0] in multiset(s);
    HeadIsNewest(t, key, s[0]);
    HeadIsNewest(s, key, t[0]);
    MultisetOfTail(s);
    MultisetOfTail(t);
  }

  lemma {:induction false} MultisetOfTail<T>(s: seq<T>)
    requires s != []
    ensures multiset(s[1..]) == multiset(s) - multiset{s[0]}
  {
    assert s == [s[0]] + s[1..];
  }

  /** The elements of `s` that satisfy `keep`, in their original order. */
  function Filter<T>(s: seq<T>, keep: T -> bool): (r: seq<T>)
    ensures |r| <= |s|
    ensures forall i :: 0 <= i < |r| ==> r[i] in s && keep(r[i])
    ensures forall i :: 0 <= i < |s| && keep(s[i]) ==> s[i] in r
  {
    if s == [] then []
    else Filter(s[..|s| - 1], keep) + (if keep(s[|s| - 1]) then [s[|s| - 1]] else [])
  }

  /** Filtering keeps the relative order of what it keeps (oldest-first lists). */
  lemma {:induction false} FilterKeepsAscending<T>(s: seq<T>, keep: T -> bool, key: T -> int)
    requires Ascending(s, key)
    ensures Ascending(Filter(s, keep), key)
  {
    if s != [] {
      var init, last := s[..|s| - 1], s[|s| - 1];
      FilterKeepsAscending(init, keep, key);
      var f := Filter(init, keep);
      forall k | 0 <= k < |f| ensures key(f[k]) < key(last) {
        var i :| 0 <= i < |init| && init[i] == f[k];
      }
      if keep(last) {
        AppendAscending(f, last, key);
      } else {
        assert Filter(s, keep) == f + [];
      }
    }
  }

  lemma {:induction false} AppendAscending<T>(f: seq<T>, x: T, key: T -> int)
    requires Ascending(f, key)
    requires forall k :: 0 <= k < |f| ==> key(f[k]) < key(x)
    ensures Ascending(f + [x], key)
  {
  }

  /** Filtering keeps the relative order of what it keeps (newest-first lists). */
  lemma {:induction false} FilterKeepsDescending<T>(s: seq<T>, keep: T -> bool, key: T -> int)
    requires Descending(s, key)
    ensures Descending(Filter(s, keep), key)
  {
    if s != [] {
      var init, last := s[..|s| - 1], s[|s| - 1];
      FilterKeepsDescending(init, keep, key);
      var f := Filter(init, keep);
      forall k | 0 <= k < |f| ensures key(f[k]) > key(last) {
        var i :| 0 <= i < |init| && init[i] == f[k];
      }
      if keep(last) {
        AppendDescending(f, last, key);
      } else {
        assert Filter(s, keep) == f + [];
      }
    }
  }

  lemma {:induction false} AppendDescending<T>(f: seq<T>, x: T, key: T -> int)
    requires Descending(f, key)
    requires forall k :: 0 <= k < |f| ==> key(f[k]) > key(x)
    ensures Descending(f + [x], key)
  {
  }
}
