/** The `Array.prototype.filter` and `findIndex` the pages use on their lists. */
module Seqs {

  /** `s.filter(p)`: the elements satisfying `p`, in their original order. */
  function Filter<T>(s: seq<T>, p: T -> bool): (r: seq<T>)
    ensures |r| <= |s|
    ensures forall k :: 0 <= k < |r| ==> r[k] in s
    ensures forall k :: 0 <= k < |s| && p(s[k]) ==> s[k] in r
    ensures forall k :: 0 <= k < |r| ==> p(r[k])
  {
    if s == [] then [] else (if p(s[0]) then [s[0]] else []) + Filter(s[1..], p)
  }

  /** Filtering distributes over concatenation, so relative order is kept. */
  lemma {:induction false} FilterConcat<T>(s: seq<T>, t: seq<T>, p: T -> bool)
    ensures Filter(s + t, p) == Filter(s, p) + Filter(t, p)
  {
    if s != [] {
      assert (s + t)[1..] == s[1..] + t;
      FilterConcat(s[1..], t, p);
    } else {
      assert s + t == t;
    }
  }

  /** A filter whose predicate holds everywhere keeps the whole list. */
  lemma {:induction false} FilterKeepsAll<T>(s: seq<T>, p: T -> bool)
    requires forall k :: 0 <= k < |s| ==> p(s[k])
    ensures Filter(s, p) == s
  {
    if s != [] {
      FilterKeepsAll(s[1..], p);
    }
  }

  /** A filter and the filter of its negation split a list without loss or duplication. */
  lemma {:induction false} FilterPartition<T>(s: seq<T>, p: T -> bool, q: T -> bool)
    requires forall x :: q(x) == !p(x)
    ensures multiset(Filter(s, p)) + multiset(Filter(s, q)) == multiset(s)
    ensures |Filter(s, p)| + |Filter(s, q)| == |s|
  {
    if s != [] {
      FilterPartition(s[1..], p, q);
      assert s == [s[0]] + s[1..];
    }
  }

  /** `x` survives a filter exactly when it is in the list and satisfies the predicate. */
  lemma FilterMembership<T>(s: seq<T>, p: T -> bool, x: T)
    ensures x in Filter(s, p) <==> x in s && p(x)
  {
    if x in s && p(x) {
      var k :| 0 <= k < |s| && s[k] == x;
    }
  }

  /** Two filters in a row keep the same elements, in the same order, as one filter by both predicates. */
  lemma {:induction false} FilterFilter<T>(s: seq<T>, p: T -> bool, q: T -> bool, pq: T -> bool)
    requires forall x :: pq(x) == (p(x) && q(x))
    ensures Filter(Filter(s, p), q) == Filter(s, pq)
  {
    if s != [] {
      FilterFilter(s[1..], p, q, pq);
      var head := if p(s[0]) then [s[0]] else [];
      FilterConcat(head, Filter(s[1..], p), q);
    }
  }

  /** `s.findIndex(p)`: the first index whose element satisfies `p`, or -1 when none does. */
  function FindIndex<T>(s: seq<T>, p: T -> bool): (i: int)
    ensures -1 <= i < |s|
    ensures i == -1 <==> forall k :: 0 <= k < |s| ==> !p(s[k])
    ensures i >= 0 ==> p(s[i]) && forall k :: 0 <= k < i ==> !p(s[k])
  {
    if s == [] then -1
    else if p(s[0]) then 0
    else
      var j := FindIndex(s[1..], p);
      if j == -1 then -1 else j + 1
  }

  /** Appending an element leaves the earlier answers as they were and finds the new one last. */
  lemma {:induction false} FindIndexAppend<T>(s: seq<T>, x: T, p: T -> bool)
    ensures FindIndex(s + [x], p) ==
              if FindIndex(s, p) >= 0 then FindIndex(s, p)
              else if p(x) then |s| else -1
  {
    if s != [] {
      assert (s + [x])[1..] == s[1..] + [x];
      FindIndexAppend(s[1..], x, p);
    }
  }
}
