/** Order-preserving selection from a sequence: the model of a pandas boolean
    mask `df[mask]`, which keeps the selected rows in table order. */
module Seqs {

  function Filter<T>(s: seq<T>, p: T -> bool): seq<T>
  {
    if s == [] then [] else (if p(s[0]) then [s[0]] else []) + Filter(s[1..], p)
  }

  /** `a` can be obtained from `b` by deleting elements. */
  predicate Subsequence<T(==)>(a: seq<T>, b: seq<T>)
    decreases |b|
  {
    if a == [] then true
    else if b == [] then false
    else if a[0] == b[0] then Subsequence(a[1..], b[1..])
    else Subsequence(a, b[1..])
  }

  /** The selection is a subsequence of the input: it keeps table order. */
  lemma {:induction false} FilterSubsequence<T>(s: seq<T>, p: T -> bool)
    ensures Subsequence(Filter(s, p), s)
  {
    if s != [] {
      FilterSubsequence(s[1..], p);
      var f := Filter(s, p);
      if p(s[0]) {
        assert f[0] == s[0];
        assert f[1..] == Filter(s[1..], p);
      } else {
        assert f == Filter(s[1..], p);
        if f != [] {
          FilterMembers(s[1..], p);
          assert f[0] in f;
        }
      }
    }
  }

  /** It holds exactly the selected elements of the input. */
  lemma {:induction false} FilterMembers<T>(s: seq<T>, p: T -> bool)
    ensures forall x :: x in Filter(s, p) ==> x in s && p(x)
    ensures forall x :: x in s && p(x) ==> x in Filter(s, p)
  {
    if s != [] {
      FilterMembers(s[1..], p);
      assert s == [s[0]] + s[1..];
    }
  }

  /** It holds each selected element as often as the input does. */
  lemma {:induction false} FilterCounts<T>(s: seq<T>, p: T -> bool)
    ensures forall x :: multiset(Filter(s, p))[x] == if p(x) then multiset(s)[x] else 0
  {
    if s != [] {
      FilterCounts(s[1..], p);
      assert s == [s[0]] + s[1..];
      assert multiset(s) == multiset([s[0]]) + multiset(s[1..]);
    }
  }

  lemma {:induction false} FilterAppend<T>(a: seq<T>, b: seq<T>, p: T -> bool)
    ensures Filter(a + b, p) == Filter(a, p) + Filter(b, p)
  {
    if a != [] {
      assert (a + b)[1..] == a[1..] + b;
      FilterAppend(a[1..], b, p);
    } else {
      assert a + b == b;
    }
  }

  /** Nothing is selected exactly when no element satisfies the predicate. */
  lemma {:induction false} FilterEmpty<T>(s: seq<T>, p: T -> bool)
    ensures Filter(s, p) == [] <==> forall i :: 0 <= i < |s| ==> !p(s[i])
  {
    if s != [] {
      FilterEmpty(s[1..], p);
      assert forall i :: 1 <= i < |s| ==> s[i] == s[1..][i - 1];
    }
  }

  /** Everything is kept exactly when every element satisfies the predicate. */
  lemma {:induction false} FilterAll<T>(s: seq<T>, p: T -> bool)
    requires forall i :: 0 <= i < |s| ==> p(s[i])
    ensures Filter(s, p) == s
  {
    if s != [] {
      FilterAll(s[1..], p);
      assert s == [s[0]] + s[1..];
    }
  }

  /** Selecting twice with the same predicate selects once. */
  lemma {:induction false} FilterIdempotent<T>(s: seq<T>, p: T -> bool)
    ensures Filter(Filter(s, p), p) == Filter(s, p)
  {
    var f := Filter(s, p);
    forall i | 0 <= i < |f| ensures p(f[i]) {
      FilterMembers(s, p);
      assert f[i] in Filter(s, p);
    }
    FilterAll(f, p);
  }

  /** Selections by predicates that pick disjoint parts and together pick
      everything form a partition: their sizes add up and their contents
      make up the input. */
  lemma {:induction false} FilterPartition3<T>(s: seq<T>, p: T -> bool, q: T -> bool, r: T -> bool)
    requires forall x :: (p(x) ==> !q(x) && !r(x)) && (q(x) ==> !r(x)) && (p(x) || q(x) || r(x))
    ensures |Filter(s, p)| + |Filter(s, q)| + |Filter(s, r)| == |s|
    ensures multiset(Filter(s, p)) + multiset(Filter(s, q)) + multiset(Filter(s, r)) == multiset(s)
  {
    if s != [] {
      FilterPartition3(s[1..], p, q, r);
      assert s == [s[0]] + s[1..];
    }
  }

  /** The first selected element is the first element of the input that
      satisfies the predicate. */
  lemma {:induction false} FilterFirst<T>(s: seq<T>, p: T -> bool)
    requires Filter(s, p) != []
    ensures exists i :: 0 <= i < |s| && p(s[i]) && Filter(s, p)[0] == s[i] &&
              forall j :: 0 <= j < i ==> !p(s[j])
  {
    if !p(s[0]) {
      FilterFirst(s[1..], p);
      var i :| 0 <= i < |s[1..]| && p(s[1..][i]) && Filter(s[1..], p)[0] == s[1..][i] &&
              forall j :: 0 <= j < i ==> !p(s[1..][j]);
      assert forall j :: 1 <= j < i + 1 ==> s[j] == s[1..][j - 1];
      assert p(s[i + 1]) && Filter(s, p)[0] == s[i + 1];
    } else {
      assert p(s[0]) && Filter(s, p)[0] == s[0];
    }
  }
}
