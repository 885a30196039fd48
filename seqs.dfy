/** Sequence helpers shared by the tag vocabulary, the job filter and the
    selected-tag state: duplicate freedom, first-occurrence index,
    order-keeping deduplication and order-keeping filtering. */
module Seqs {

  /** No element occurs twice. */
  predicate NoDup<T(==,!new)>(s: seq<T>)
  {
    forall i, j :: 0 <= i < j < |s| ==> s[i] != s[j]
  }

  /** The position of the first occurrence of `x` in `s`. */
  function IndexOf<T(==,!new)>(s: seq<T>, x: T): (i: nat)
    requires x in s
    ensures i < |s| && s[i] == x
    ensures x !in s[..i]
  {
    if s[0] == x then 0
    else
      var k := IndexOf(s[1..], x);
      assert s[..k + 1] == [s[0]] + s[1..][..k];
      k + 1
  }

  /** A non-empty sequence contains its head. */
  lemma HeadIsMember<T(!new)>(s: seq<T>)
    ensures s != [] ==> s[0] in s
  {
  }

  /** The first occurrence of an element of a prefix is found inside that prefix. */
  lemma IndexOfPrefix<T(!new)>(s: seq<T>, n: nat, x: T)
    requires n <= |s| && x in s[..n]
    ensures x in s && IndexOf(s, x) == IndexOf(s[..n], x)
  {
    var i := IndexOf(s[..n], x);
    assert s[..n][..i] == s[..i];
  }

  /** Keeps the first occurrence of every element and drops the later ones,
      visiting `s` from left to right: an element is appended when it has not
      been seen before. This is the insertion order of a set built from `s`. */
  function Dedup<T(==,!new)>(s: seq<T>): (r: seq<T>)
    ensures NoDup(r)
    ensures forall x :: x in r <==> x in s
    ensures forall i, j :: 0 <= i < j < |r| ==> IndexOf(s, r[i]) < IndexOf(s, r[j])
    decreases |s|
  {
    if s == [] then []
    else
      var init, last := s[..|s| - 1], s[|s| - 1];
      var p := Dedup(init);
      assert forall y :: y in init ==> IndexOf(s, y) == IndexOf(init, y) < |init| by {
        forall y | y in init
          ensures IndexOf(s, y) == IndexOf(init, y) < |init|
        {
          IndexOfPrefix(s, |s| - 1, y);
        }
      }
      assert s == init + [last];
      if last in p then p
      else
        assert IndexOf(s, last) == |init| by {
          assert s[..|init|] == init;
        }
        p + [last]
  }

  /** `r` lists the distinct elements of `s` in the order of their first
      occurrence. */
  ghost predicate FirstOccurrences<T(!new)>(s: seq<T>, r: seq<T>)
  {
    && NoDup(r)
    && (forall x :: x in r <==> x in s)
    && (forall i, j :: 0 <= i < j < |r| ==> IndexOf(s, r[i]) < IndexOf(s, r[j]))
  }

  /** In a duplicate-free sequence, the tail holds every element but the head. */
  lemma TailMembers<T(!new)>(r: seq<T>, x: T)
    requires NoDup(r) && r != []
    ensures x in r[1..] <==> x in r && x != r[0]
  {
  }

  /** `r` is duplicate-free and strictly ordered by first occurrence in `s`. */
  ghost predicate OrderedByFirstOccurrence<T(!new)>(s: seq<T>, r: seq<T>)
  {
    && NoDup(r)
    && (forall x :: x in r ==> x in s)
    && (forall i, j :: 0 <= i < j < |r| ==> IndexOf(s, r[i]) < IndexOf(s, r[j]))
  }

  /** The tail of an ordered sequence is ordered. */
  lemma OrderedTail<T(!new)>(s: seq<T>, r: seq<T>)
    requires OrderedByFirstOccurrence(s, r) && r != []
    ensures OrderedByFirstOccurrence(s, r[1..])
  {
  }

  /** Two ordered sequences over the same elements start alike. */
  lemma OrderedSameHead<T(!new)>(s: seq<T>, r1: seq<T>, r2: seq<T>)
    requires OrderedByFirstOccurrence(s, r1) && OrderedByFirstOccurrence(s, r2)
    requires forall x :: x in r1 <==> x in r2
    requires r1 != []
    ensures r2 != [] && r1[0] == r2[0]
  {
    assert r1[0] in r2;
    var k :| 0 <= k < |r2| && r2[k] == r1[0];
    assert r2[0] in r1;
    var m :| 0 <= m < |r1| && r1[m] == r2[0];
  }

  /** Two sequences over the same elements, both duplicate-free and strictly
      ordered by first occurrence in `s`, are equal. */
  lemma {:induction false} OrderedByFirstOccurrenceUnique<T(!new)>(s: seq<T>, r1: seq<T>, r2: seq<T>)
    requires OrderedByFirstOccurrence(s, r1) && OrderedByFirstOccurrence(s, r2)
    requires forall x :: x in r1 <==> x in r2
    ensures r1 == r2
    decreases |r1|
  {
    if r1 != [] {
      OrderedSameHead(s, r1, r2);
      OrderedTail(s, r1);
      OrderedTail(s, r2);
      forall x
        ensures x in r1[1..] <==> x in r2[1..]
      {
        TailMembers(r1, x);
        TailMembers(r2, x);
      }
      OrderedByFirstOccurrenceUnique(s, r1[1..], r2[1..]);
      assert r1 == [r1[0]] + r1[1..] && r2 == [r2[0]] + r2[1..];
    } else if r2 != [] {
      OrderedSameHead(s, r2, r1);
    }
  }

  /** Dedup is the only sequence that lists the distinct elements of `s` in
      first-occurrence order. */
  lemma DedupCharacterised<T(!new)>(s: seq<T>, r: seq<T>)
    ensures FirstOccurrences(s, r) <==> r == Dedup(s)
  {
    if FirstOccurrences(s, r) {
      OrderedByFirstOccurrenceUnique(s, r, Dedup(s));
    }
    if r == Dedup(s) {
      assert OrderedByFirstOccurrence(s, r);
    }
  }

  /** Keeps the elements that satisfy `p`, in their original order. */
  function Filter<T(==,!new)>(s: seq<T>, p: T -> bool): (r: seq<T>)
    ensures |r| <= |s|
    ensures forall x :: x in r <==> x in s && p(x)
  {
    if s == [] then []
    else (if p(s[0]) then [s[0]] else []) + Filter(s[1..], p)
  }

  /** Filtering a concatenation filters each part and keeps their order. */
  lemma {:induction false} FilterConcat<T(!new)>(a: seq<T>, b: seq<T>, p: T -> bool)
    ensures Filter(a + b, p) == Filter(a, p) + Filter(b, p)
  {
    if a == [] {
      assert a + b == b;
    } else {
      assert (a + b)[0] == a[0];
      assert (a + b)[1..] == a[1..] + b;
      FilterConcat(a[1..], b, p);
    }
  }

  /** Filtering keeps a sequence whole exactly when every element passes. */
  lemma {:induction false} FilterKeepsAll<T(!new)>(s: seq<T>, p: T -> bool)
    ensures Filter(s, p) == s <==> forall x :: x in s ==> p(x)
  {
    if s != [] {
      FilterKeepsAll(s[1..], p);
      if !p(s[0]) {
        assert |Filter(s, p)| < |s| by {
          assert Filter(s, p) == Filter(s[1..], p);
        }
      }
    }
  }

  /** Filtering never introduces a duplicate. */
  lemma {:induction false} FilterNoDup<T(!new)>(s: seq<T>, p: T -> bool)
    requires NoDup(s)
    ensures NoDup(Filter(s, p))
  {
    if s != [] {
      assert NoDup(s[1..]) by {
        forall i, j | 0 <= i < j < |s[1..]|
          ensures s[1..][i] != s[1..][j]
        {
          assert s[1..][i] == s[i + 1] && s[1..][j] == s[j + 1];
        }
      }
      FilterNoDup(s[1..], p);
      assert s[0] !in s[1..] by {
        forall k | 0 <= k < |s[1..]|
          ensures s[1..][k] != s[0]
        {
          assert s[1..][k] == s[k + 1];
        }
      }
    }
  }

  /** Filtering twice with the same test is filtering once. */
  lemma FilterIdempotent<T(!new)>(s: seq<T>, p: T -> bool)
    ensures Filter(Filter(s, p), p) == Filter(s, p)
  {
    FilterKeepsAll(Filter(s, p), p);
  }
}
