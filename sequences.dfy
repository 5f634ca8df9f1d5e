/*
 * Generic sequence helpers shared by the extractor and the extraction service:
 * duplicate freedom and PHP's array_unique on a list (keep the first
 * occurrence of every value, in order).
 */
module Sequences {

  /** The set of elements of a sequence. */
  function Elems<T(==,!new)>(s: seq<T>): set<T>
  {
    set x | x in s
  }

  /** No element occurs twice. */
  predicate NoDup<T(==,!new)>(s: seq<T>)
  {
    forall i, j :: 0 <= i < j < |s| ==> s[i] != s[j]
  }

  /**
   * Keeps, in order, the first occurrence of every element of `s` that is not
   * already in `seen`.  `Unique(s)` below is the plain deduplication.
   */
  function Fresh<T(==,!new)>(s: seq<T>, seen: set<T>): (r: seq<T>)
    ensures forall x :: x in r <==> x in s && x !in seen
    ensures NoDup(r)
    ensures |r| <= |s|
  {
    if s == [] then []
    else if s[0] in seen then Fresh(s[1..], seen)
    else
      var rest := Fresh(s[1..], seen + {s[0]});
      assert s[0] !in rest;
      [s[0]] + rest
  }

  /** Deduplication keeping first occurrences. */
  function Unique<T(==,!new)>(s: seq<T>): seq<T>
  {
    Fresh(s, {})
  }

  /** Deduplicating a concatenation: the second part only contributes what the first did not. */
  lemma {:induction false} FreshAppend<T(!new)>(a: seq<T>, b: seq<T>, seen: set<T>)
    ensures Fresh(a + b, seen) == Fresh(a, seen) + Fresh(b, seen + Elems(a))
    decreases |a|
  {
    if a == [] {
      assert a + b == b;
      assert Elems(a) == {};
      assert seen + Elems(a) == seen;
    } else {
      assert (a + b)[0] == a[0];
      assert (a + b)[1..] == a[1..] + b;
      if a[0] in seen {
        FreshAppend(a[1..], b, seen);
        assert seen + Elems(a[1..]) == seen + Elems(a);
      } else {
        FreshAppend(a[1..], b, seen + {a[0]});
        assert seen + {a[0]} + Elems(a[1..]) == seen + Elems(a);
      }
    }
  }

  /** The position of the first occurrence of `x` in `s`. */
  /** A non-empty sequence is its head followed by its tail. */
  lemma HeadTail<T>(s: seq<T>)
    requires s != []
    ensures [s[0]] + s[1..] == s
  {}

  function IndexOf<T(==)>(s: seq<T>, x: T): (k: nat)
    requires x in s
    ensures k < |s| && s[k] == x
    ensures forall i :: 0 <= i < k ==> s[i] != x
  {
    if s[0] == x then 0 else 1 + IndexOf(s[1..], x)
  }

  /** Past a different first element, the first occurrence is one further on than in the tail. */
  lemma IndexOfTail<T(!new)>(s: seq<T>, x: T)
    requires x in s && x != s[0]
    ensures x in s[1..] && IndexOf(s, x) == 1 + IndexOf(s[1..], x)
  {
  }

  /**
   * `Fresh` keeps the order of first occurrences: of two kept elements, the
   * one kept earlier occurs first in `s`.
   */
  lemma {:induction false} FreshOrder<T(!new)>(s: seq<T>, seen: set<T>)
    ensures forall i, j :: 0 <= i < j < |Fresh(s, seen)| ==> IndexOf(s, Fresh(s, seen)[i]) < IndexOf(s, Fresh(s, seen)[j])
    decreases |s|
  {
    if s != [] {
      var r := Fresh(s, seen);
      if s[0] in seen {
        FreshOrder(s[1..], seen);
        forall x | x in r
          ensures IndexOf(s, x) == 1 + IndexOf(s[1..], x)
        {
          IndexOfTail(s, x);
        }
      } else {
        var rest := Fresh(s[1..], seen + {s[0]});
        FreshOrder(s[1..], seen + {s[0]});
        assert r == [s[0]] + rest;
        forall x | x in rest
          ensures IndexOf(s, x) == 1 + IndexOf(s[1..], x)
        {
          IndexOfTail(s, x);
        }
        forall i, j | 0 <= i < j < |r|
          ensures IndexOf(s, r[i]) < IndexOf(s, r[j])
        {
          assert r[j] == rest[j - 1];
          if i > 0 {
            assert r[i] == rest[i - 1];
          }
        }
      }
    }
  }

  /** A duplicate-free sequence disjoint from `seen` passes through unchanged. */
  lemma {:induction false} FreshIdentity<T(!new)>(s: seq<T>, seen: set<T>)
    requires NoDup(s)
    requires forall x :: x in s ==> x !in seen
    ensures Fresh(s, seen) == s
    decreases |s|
  {
    if s != [] {
      assert NoDup(s[1..]);
      assert forall x :: x in s[1..] ==> x !in seen + {s[0]};
      FreshIdentity(s[1..], seen + {s[0]});
      assert s == [s[0]] + s[1..];
    }
  }

  /** Deduplication is idempotent. */
  lemma UniqueIdempotent<T(!new)>(s: seq<T>)
    ensures Unique(Unique(s)) == Unique(s)
  {
    FreshIdentity(Unique(s), {});
  }

  /** The deduplicated list is exactly as long as the input iff the input had no duplicates. */
  lemma {:induction false} UniqueLength<T(!new)>(s: seq<T>)
    ensures |Unique(s)| == |s| <==> NoDup(s)
  {
    if NoDup(s) {
      FreshIdentity(s, {});
    } else {
      var i, j :| 0 <= i < j < |s| && s[i] == s[j];
      FreshShorter(s, {}, i, j);
    }
  }

  /** A repeated element makes the deduplicated list strictly shorter. */
  lemma {:induction false} FreshShorter<T(!new)>(s: seq<T>, seen: set<T>, i: int, j: int)
    requires 0 <= i < j < |s| && s[i] == s[j]
    ensures |Fresh(s, seen)| < |s|
    decreases |s|
  {
    if s[0] in seen {
    } else if i == 0 {
      assert s[1..][j - 1] == s[0];
      FreshDropsSeen(s[1..], seen + {s[0]}, j - 1);
    } else {
      FreshShorter(s[1..], seen + {s[0]}, i - 1, j - 1);
    }
  }

  /** An element already seen is dropped, so the result is strictly shorter. */
  lemma {:induction false} FreshDropsSeen<T(!new)>(s: seq<T>, seen: set<T>, k: int)
    requires 0 <= k < |s| && s[k] in seen
    ensures |Fresh(s, seen)| < |s|
    decreases |s|
  {
    if s[0] !in seen {
      FreshDropsSeen(s[1..], seen + {s[0]}, k - 1);
    }
  }

  /** A duplicate-free sequence has as many distinct elements as entries. */
  lemma {:induction false} NoDupCardinality<T(!new)>(s: seq<T>)
    requires NoDup(s)
    ensures |Elems(s)| == |s|
    decreases |s|
  {
    if s != [] {
      assert NoDup(s[1..]);
      NoDupCardinality(s[1..]);
      assert Elems(s) == {s[0]} + Elems(s[1..]);
      assert s[0] !in Elems(s[1..]);
    }
  }

  /** Two duplicate-free sequences with the same elements have the same length. */
  lemma SameElementsSameLength<T(!new)>(a: seq<T>, b: seq<T>)
    requires NoDup(a) && NoDup(b)
    requires forall x :: x in a <==> x in b
    ensures |a| == |b|
  {
    NoDupCardinality(a);
    NoDupCardinality(b);
    assert Elems(a) == Elems(b);
  }

  /** Concatenating two duplicate-free, disjoint sequences keeps them duplicate-free. */
  lemma NoDupAppend<T(!new)>(a: seq<T>, b: seq<T>)
    requires NoDup(a) && NoDup(b)
    requires forall x :: x in a ==> x !in b
    ensures NoDup(a + b)
  {
    forall i, j | 0 <= i < j < |a + b|
      ensures (a + b)[i] != (a + b)[j]
    {
      if j < |a| {
      } else if i >= |a| {
        assert (a + b)[i] == b[i - |a|] && (a + b)[j] == b[j - |a|];
      } else {
        assert (a + b)[i] in a && (a + b)[j] in b;
      }
    }
  }
}
