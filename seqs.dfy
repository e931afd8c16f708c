/** Facts about sequences used when a Python list stands for an enumeration
    of a set. */
module Seqs {

  /** No element occurs twice. */
  predicate Distinct<T(==)>(s: seq<T>)
  {
    forall i, j :: 0 <= i < j < |s| ==> s[i] != s[j]
  }

  /** An element at two positions is counted at least twice. */
  lemma {:induction false} RepeatCounted<T>(s: seq<T>, i: int, j: int)
    requires 0 <= i < j < |s| && s[i] == s[j]
    ensures multiset(s)[s[i]] >= 2
  {
    assert s == s[..j] + [s[j]] + s[j + 1..];
    assert s[i] in multiset(s[..j]) by {
      assert s[..j][i] == s[i];
    }
  }

  /** A list whose elements, counted, form a set has no repeats. */
  lemma {:induction false} DistinctWhenCountsAtMostOne<T>(s: seq<T>)
    requires forall x :: multiset(s)[x] <= 1
    ensures Distinct(s)
  {
    forall i, j | 0 <= i < j < |s|
      ensures s[i] != s[j]
    {
      if s[i] == s[j] {
        RepeatCounted(s, i, j);
      }
    }
  }

  /** Every element of a set occurs once in the set's multiset. */
  lemma SetCountsAtMostOne<T>(S: set<T>)
    ensures forall x :: multiset(S)[x] <= 1
  {
  }

  /** The members of a list, as a set. */
  function Elements<T(==)>(s: seq<T>): set<T>
  {
    set x | x in s
  }

  /** `P(k, xs[k], ys[k])` at every position of two lists of one length. */
  ghost predicate EveryPair<A, B>(P: (int, A, B) -> bool, xs: seq<A>, ys: seq<B>)
  {
    |xs| == |ys| && forall k :: 0 <= k < |xs| ==> P(k, xs[k], ys[k])
  }

  lemma EveryPairSnoc<A, B>(P: (int, A, B) -> bool, xs: seq<A>, ys: seq<B>, x: A, y: B)
    requires EveryPair(P, xs, ys) && P(|xs|, x, y)
    ensures EveryPair(P, xs + [x], ys + [y])
  {
    assert forall k :: 0 <= k < |xs| ==> (xs + [x])[k] == xs[k] && (ys + [y])[k] == ys[k];
  }

  /** Every element belongs to `A` or `B`, and once an element of `B` has
      occurred only elements of `B` follow. */
  predicate Grouped<T(==)>(s: seq<T>, A: set<T>, B: set<T>)
  {
    && (forall x :: x in s ==> x in A || x in B)
    && (forall i, j :: 0 <= i < j < |s| && s[i] in B ==> s[j] in B)
  }

  /** A run of `A`s followed by a run of `B`s, each without repeats, is
      grouped and has no repeats when `A` and `B` are disjoint. */
  lemma {:induction false} JoinGrouped<T>(s1: seq<T>, s2: seq<T>, A: set<T>, B: set<T>)
    requires A !! B
    requires Distinct(s1) && forall x :: x in s1 ==> x in A
    requires Distinct(s2) && forall x :: x in s2 ==> x in B
    ensures Distinct(s1 + s2) && Grouped(s1 + s2, A, B)
    ensures Elements(s1 + s2) == Elements(s1) + Elements(s2)
  {
    var s := s1 + s2;
    forall i, j | 0 <= i < j < |s|
      ensures s[i] != s[j]
      ensures s[i] in B ==> s[j] in B
    {
      if j < |s1| {
        assert s[i] == s1[i] && s[j] == s1[j];
      } else if i < |s1| {
        assert s[i] == s1[i] && s[j] == s2[j - |s1|];
        assert s1[i] in s1 && s2[j - |s1|] in s2;
      } else {
        assert s[i] == s2[i - |s1|] && s[j] == s2[j - |s1|];
        assert s2[j - |s1|] in s2;
      }
    }
  }
}
