/*
 * Character-level string helpers: substring occurrence, first index of a
 * delimiter, and splitting on / joining with a separator character (PHP's
 * explode and implode on a single character).
 */
module Strings {

  /** `needle` occurs somewhere in `hay` (PHP's strpos(...) !== FALSE). */
  predicate Occurs(needle: string, hay: string)
  {
    exists i | 0 <= i <= |hay| :: OccursAt(needle, hay, i)
  }

  /** `needle` occurs in `hay` starting at offset `i`. */
  predicate OccursAt(needle: string, hay: string, i: int)
  {
    0 <= i && i + |needle| <= |hay| && hay[i..i + |needle|] == needle
  }

  /** Occurrences in `s` past its first character are the occurrences in its tail, shifted by one. */
  lemma OccursAtTail(needle: string, s: string)
    requires |s| >= 1
    ensures forall i :: 1 <= i ==> (OccursAt(needle, s, i) <==> OccursAt(needle, s[1..], i - 1))
  {
    forall i | 1 <= i
      ensures OccursAt(needle, s, i) <==> OccursAt(needle, s[1..], i - 1)
    {
      if i + |needle| <= |s| {
        var m := |needle|;
        var a, b := s[i..i + m], s[1..][i - 1..i - 1 + m];
        assert forall j :: 0 <= j < m ==> a[j] == b[j];
        assert a == b;
      }
    }
  }

  /** A character of the needle that the haystack lacks rules out an occurrence. */
  lemma MissingCharNoOccurrence(needle: string, hay: string, c: char)
    requires c in needle && c !in hay
    ensures !Occurs(needle, hay)
  {
  }

  /** An occurrence in the tail of a concatenation is an occurrence in the whole. */
  lemma OccursInSuffix(needle: string, a: string, b: string)
    requires Occurs(needle, b)
    ensures Occurs(needle, a + b)
  {
    var i :| 0 <= i <= |b| && OccursAt(needle, b, i);
    assert (a + b)[|a| + i..|a| + i + |needle|] == b[i..i + |needle|];
    assert OccursAt(needle, a + b, |a| + i);
  }

  /** An occurrence in the head of a concatenation is an occurrence in the whole. */
  lemma OccursInPrefix(needle: string, a: string, b: string)
    requires Occurs(needle, a)
    ensures Occurs(needle, a + b)
  {
    var i :| 0 <= i <= |a| && OccursAt(needle, a, i);
    assert (a + b)[i..i + |needle|] == a[i..i + |needle|];
    assert OccursAt(needle, a + b, i);
  }

  /**
   * Index of the first character of `s` that belongs to `cs`, or `|s|` when
   * there is none.
   */
  function FirstIndex(s: string, cs: set<char>): (k: nat)
    ensures k <= |s|
    ensures forall i :: 0 <= i < k ==> s[i] !in cs
    ensures k < |s| ==> s[k] in cs
  {
    if s == [] then 0
    else if s[0] in cs then 0
    else 1 + FirstIndex(s[1..], cs)
  }

  /** The first delimiter of `a + b` is past `a` when `a` has none. */
  lemma {:induction false} FirstIndexAfter(a: string, b: string, cs: set<char>)
    requires forall c :: c in a ==> c !in cs
    ensures FirstIndex(a + b, cs) == |a| + FirstIndex(b, cs)
    decreases |a|
  {
    if a == [] {
      assert a + b == b;
    } else {
      assert (a + b)[0] == a[0];
      assert (a + b)[1..] == a[1..] + b;
      FirstIndexAfter(a[1..], b, cs);
    }
  }

  /** The first delimiter of `a + b` lies in `a` when `a` has one. */
  lemma FirstIndexWithin(a: string, b: string, cs: set<char>)
    requires FirstIndex(a, cs) < |a|
    ensures FirstIndex(a + b, cs) == FirstIndex(a, cs)
  {
    assert forall i :: 0 <= i < |a| ==> (a + b)[i] == a[i];
  }

  /** Splits `s` at every `sep` (PHP's explode with a one-character separator). */
  function Split(s: string, sep: char): (parts: seq<string>)
    ensures |parts| >= 1
    ensures forall p :: p in parts ==> sep !in p
    decreases |s|
  {
    var k := FirstIndex(s, {sep});
    if k == |s| then
      assert forall i :: 0 <= i < |s| ==> s[i] != sep;
      [s]
    else
      assert forall i :: 0 <= i < k ==> s[..k][i] != sep;
      [s[..k]] + Split(s[k + 1..], sep)
  }

  /** Joins non-empty lists of parts with `sep` (PHP's implode). */
  function Join(parts: seq<string>, sep: char): (s: string)
    requires |parts| >= 1
    ensures |s| >= |parts| - 1
  {
    if |parts| == 1 then parts[0] else parts[0] + [sep] + Join(parts[1..], sep)
  }

  /** Joining the pieces of a split gives the string back. */
  lemma {:induction false} JoinSplit(s: string, sep: char)
    ensures Join(Split(s, sep), sep) == s
    decreases |s|
  {
    var k := FirstIndex(s, {sep});
    if k == |s| {
      SplitNoSeparator(s, sep);
    } else {
      var a, b := s[..k], s[k + 1..];
      assert s == a + [sep] + b;
      SplitAtFirst(a, b, sep);
      JoinSplit(b, sep);
      var ps := [a] + Split(b, sep);
      assert ps[1..] == Split(b, sep);
    }
  }

  /** Splitting a join of separator-free parts gives the parts back. */
  lemma {:induction false} SplitJoin(parts: seq<string>, sep: char)
    requires |parts| >= 1
    requires forall p :: p in parts ==> sep !in p
    ensures Split(Join(parts, sep), sep) == parts
    decreases |parts|
  {
    if |parts| == 1 {
      SplitNoSeparator(parts[0], sep);
    } else {
      var rest := Join(parts[1..], sep);
      SplitJoin(parts[1..], sep);
      SplitAtFirst(parts[0], rest, sep);
      assert parts == [parts[0]] + parts[1..];
    }
  }

  /** A string without the separator splits into itself. */
  lemma SplitNoSeparator(s: string, sep: char)
    requires sep !in s
    ensures Split(s, sep) == [s]
  {
    FirstIndexAfter(s, [], {sep});
    assert s + [] == s;
  }

  /** Splitting at the first separator. */
  lemma SplitAtFirst(a: string, b: string, sep: char)
    requires sep !in a
    ensures Split(a + [sep] + b, sep) == [a] + Split(b, sep)
  {
    var s := a + [sep] + b;
    assert s == a + ([sep] + b);
    FirstIndexAfter(a, [sep] + b, {sep});
    assert s[..|a|] == a;
    assert s[|a| + 1..] == b;
  }

  /** Joining a concatenation of part lists puts one separator between them. */
  lemma {:induction false} JoinAppend(p: seq<string>, q: seq<string>, sep: char)
    requires |p| >= 1 && |q| >= 1
    ensures Join(p + q, sep) == Join(p, sep) + [sep] + Join(q, sep)
    decreases |p|
  {
    if |p| == 1 {
      assert (p + q)[1..] == q;
    } else {
      assert (p + q)[1..] == p[1..] + q;
      JoinAppend(p[1..], q, sep);
    }
  }

  /** Splitting at a known separator splits each side independently. */
  lemma SplitAppend(a: string, b: string, sep: char)
    ensures Split(a + [sep] + b, sep) == Split(a, sep) + Split(b, sep)
  {
    JoinSplit(a, sep);
    JoinSplit(b, sep);
    JoinAppend(Split(a, sep), Split(b, sep), sep);
    SplitJoin(Split(a, sep) + Split(b, sep), sep);
  }

  /** A joined string holds no character of `cs` when neither its parts nor the separator do. */
  lemma {:induction false} JoinExcludes(parts: seq<string>, sep: char, cs: set<char>)
    requires |parts| >= 1 && sep !in cs
    requires forall p :: p in parts ==> forall c :: c in cs ==> c !in p
    ensures forall c :: c in cs ==> c !in Join(parts, sep)
    decreases |parts|
  {
    assert parts[0] in parts;
    if |parts| > 1 {
      assert forall p :: p in parts[1..] ==> p in parts;
      JoinExcludes(parts[1..], sep, cs);
      var rest := Join(parts[1..], sep);
      assert Join(parts, sep) == parts[0] + ([sep] + rest);
      forall c | c in cs
        ensures c !in Join(parts, sep)
      {
        assert c !in parts[0] && c !in rest && c != sep;
      }
    }
  }

  /** The first part of a join starts it. */
  lemma JoinStart(parts: seq<string>, sep: char)
    requires |parts| >= 1 && parts[0] != []
    ensures Join(parts, sep) != [] && Join(parts, sep)[0] == parts[0][0]
  {
  }
}
