/**
 * The Array.prototype operations the screens use (filter, indexOf, findIndex,
 * find, slice, spreading a Set), stated once over Dafny sequences.
 */
module Seqs {
  import opened Wrappers

  /** `r` is obtained from `s` by deleting elements, keeping the order of the rest. */
  predicate IsSubsequence<T(==)>(r: seq<T>, s: seq<T>)
    decreases |s|
  {
    if r == [] then true
    else if s == [] then false
    else if r[0] == s[0] then IsSubsequence(r[1..], s[1..])
    else IsSubsequence(r, s[1..])
  }

  /** Every sequence is a subsequence of itself. */
  lemma {:induction false} SubsequenceOfItself<T>(s: seq<T>)
    ensures IsSubsequence(s, s)
  {
    if s != [] {
      SubsequenceOfItself(s[1..]);
    }
  }

  /** `s.filter(p)`: exactly the elements satisfying `p`, in their original order. */
  function Filter<T(==)>(s: seq<T>, p: T -> bool): (r: seq<T>)
    ensures |r| <= |s|
    ensures forall x :: x in r ==> x in s && p(x)
    ensures forall x :: x in s ==> multiset(r)[x] == if p(x) then multiset(s)[x] else 0
    ensures IsSubsequence(r, s)
  {
    if s == [] then []
    else
      var rest := Filter(s[1..], p);
      assert s == [s[0]] + s[1..];
      if p(s[0]) then
        assert ([s[0]] + rest)[1..] == rest;
        [s[0]] + rest
      else
        rest
  }

  /** Filtering with a predicate that holds of every element keeps the whole sequence. */
  lemma {:induction false} FilterAll<T>(s: seq<T>, p: T -> bool)
    requires forall x :: x in s ==> p(x)
    ensures Filter(s, p) == s
  {
    if s != [] {
      FilterAll(s[1..], p);
    }
  }

  /** Two predicates that agree on the elements of `s` filter it the same way. */
  lemma {:induction false} FilterExt<T>(s: seq<T>, p: T -> bool, q: T -> bool)
    requires forall x :: x in s ==> p(x) == q(x)
    ensures Filter(s, p) == Filter(s, q)
  {
    if s != [] {
      FilterExt(s[1..], p, q);
    }
  }

  /** Filtering by `p` and then by `q` is filtering once by their conjunction. */
  lemma {:induction false} FilterFuse<T>(s: seq<T>, p: T -> bool, q: T -> bool, pq: T -> bool)
    requires forall x :: pq(x) == (p(x) && q(x))
    ensures Filter(Filter(s, p), q) == Filter(s, pq)
  {
    if s != [] {
      FilterFuse(s[1..], p, q, pq);
      var rest := Filter(s[1..], p);
      if p(s[0]) {
        assert ([s[0]] + rest)[1..] == rest;
      }
    }
  }

  /** `s.indexOf(x)` (and `s.findIndex(e => e === x)`): the first position of `x`, or -1. */
  function IndexOf<T(==)>(s: seq<T>, x: T): (i: int)
    ensures -1 <= i < |s|
    ensures i == -1 <==> x !in s
    ensures 0 <= i ==> s[i] == x && x !in s[..i]
  {
    if s == [] then -1
    else if s[0] == x then 0
    else
      var j := IndexOf(s[1..], x);
      if j == -1 then -1
      else
        assert s[..j + 1] == [s[0]] + s[1..][..j];
        j + 1
  }

  /** Appending an element does not move the first occurrence of one already present. */
  lemma {:induction false} IndexOfAppend<T>(s: seq<T>, y: T, x: T)
    requires x in s
    ensures IndexOf(s + [y], x) == IndexOf(s, x)
  {
    if s[0] != x {
      assert (s + [y])[1..] == s[1..] + [y];
      IndexOfAppend(s[1..], y, x);
    }
  }

  /** The first occurrence is where `x` stands with no `x` before it. */
  lemma IndexOfAt<T>(s: seq<T>, x: T, k: nat)
    requires k < |s| && s[k] == x
    requires forall j :: 0 <= j < k ==> s[j] != x
    ensures IndexOf(s, x) == k
  {
    var i := IndexOf(s, x);
    assert forall j :: k < j <= |s| ==> s[..j][k] == x;
    assert forall j :: 0 <= j < k ==> s[..k][j] == s[j];
  }

  /** In a sequence without repetitions, the element at `k` is found at `k`. */
  lemma IndexOfDistinct<T>(s: seq<T>, k: nat)
    requires k < |s|
    requires forall i, j :: 0 <= i < j < |s| ==> s[i] != s[j]
    ensures IndexOf(s, s[k]) == k
  {
  }

  /** `s.find(p)`: the first element satisfying `p`, if any. */
  function Find<T(==)>(s: seq<T>, p: T -> bool): (r: Option<T>)
    ensures r.None? <==> forall i :: 0 <= i < |s| ==> !p(s[i])
    ensures r.Some? ==> exists i :: 0 <= i < |s| && s[i] == r.value && p(s[i]) && forall j :: 0 <= j < i ==> !p(s[j])
  {
    if s == [] then None
    else if p(s[0]) then Some(s[0])
    else
      var r := Find(s[1..], p);
      if r.Some? then
        var i :| 0 <= i < |s[1..]| && s[1..][i] == r.value && p(s[1..][i]) && forall j :: 0 <= j < i ==> !p(s[1..][j]);
        assert s[i + 1] == r.value && forall j :: 0 <= j < i + 1 ==> !p(s[j]);
        r
      else
        r
  }

  /** `find` stops at the first element satisfying `p`. */
  lemma FindAt<T>(s: seq<T>, p: T -> bool, k: nat)
    requires k < |s| && p(s[k])
    requires forall j :: 0 <= j < k ==> !p(s[j])
    ensures Find(s, p) == Some(s[k])
  {
  }

  /** No element of `r` appears twice. */
  predicate NoRepeats<T(==)>(r: seq<T>) {
    forall i, j :: 0 <= i < j < |r| ==> r[i] != r[j]
  }

  /** Every element of `r` is in `s`. */
  predicate Within<T(==)>(r: seq<T>, s: seq<T>) {
    forall i :: 0 <= i < |r| ==> r[i] in s
  }

  /** The elements of `r` are in the order of their first occurrences in `s`. */
  predicate FirstOccurrenceOrder<T(==)>(s: seq<T>, r: seq<T>) {
    forall i, j :: 0 <= i < j < |r| ==> IndexOf(s, r[i]) < IndexOf(s, r[j])
  }

  /**
   * `[...new Set(s)]`: the distinct elements of `s`, each at the place of its
   * first occurrence.
   */
  function Distinct<T(==)>(s: seq<T>): (r: seq<T>)
    ensures NoRepeats(r)
    ensures Within(r, s) && Within(s, r)
    ensures FirstOccurrenceOrder(s, r)
    decreases |s|
  {
    if s == [] then []
    else
      var init, last := s[..|s| - 1], s[|s| - 1];
      var rest := Distinct(init);
      assert s == init + [last];
      AppendWithin(rest, init, last);
      AppendFirstOccurrenceOrder(init, last, rest);
      if last in rest then
        AppendCovered(init, last, rest);
        rest
      else
        AppendNew(init, last, rest);
        rest + [last]
  }

  /** Growing `s` at the end keeps what was in it in it. */
  lemma AppendWithin<T>(r: seq<T>, s: seq<T>, y: T)
    requires Within(r, s)
    ensures Within(r, s + [y])
  {
    forall i | 0 <= i < |r|
      ensures r[i] in s + [y]
    {
      assert r[i] in s;
      var k :| 0 <= k < |s| && s[k] == r[i];
      assert (s + [y])[k] == r[i];
    }
  }

  /** Growing `s` at the end does not move the first occurrences of what `r` lists from `s`. */
  lemma AppendFirstOccurrenceOrder<T>(s: seq<T>, y: T, r: seq<T>)
    requires Within(r, s) && FirstOccurrenceOrder(s, r)
    ensures FirstOccurrenceOrder(s + [y], r)
  {
    forall i | 0 <= i < |r|
      ensures IndexOf(s + [y], r[i]) == IndexOf(s, r[i])
    {
      IndexOfAppend(s, y, r[i]);
    }
  }

  /** An element already listed needs no new place. */
  lemma AppendCovered<T>(s: seq<T>, y: T, r: seq<T>)
    requires Within(s, r) && y in r
    ensures Within(s + [y], r)
  {
    forall i | 0 <= i < |s| + 1
      ensures (s + [y])[i] in r
    {
      if i < |s| {
        assert (s + [y])[i] == s[i];
      }
    }
  }

  /** A new element goes last: it is not repeated and its first occurrence is after all others. */
  lemma AppendNew<T>(s: seq<T>, y: T, r: seq<T>)
    requires NoRepeats(r) && Within(r, s) && Within(s, r) && y !in r
    requires FirstOccurrenceOrder(s + [y], r)
    ensures NoRepeats(r + [y])
    ensures Within(r + [y], s + [y]) && Within(s + [y], r + [y])
    ensures FirstOccurrenceOrder(s + [y], r + [y])
  {
    AppendNewOrder(s, y, r);
    AppendNewWithin(s, y, r);
  }

  lemma AppendNewOrder<T>(s: seq<T>, y: T, r: seq<T>)
    requires NoRepeats(r) && Within(r, s) && y !in s && y !in r
    requires FirstOccurrenceOrder(s + [y], r)
    ensures NoRepeats(r + [y])
    ensures FirstOccurrenceOrder(s + [y], r + [y])
  {
    var t, q := s + [y], r + [y];
    IndexOfAt(t, y, |s|);
    forall i | 0 <= i < |r|
      ensures IndexOf(t, q[i]) < |s|
    {
      assert q[i] == r[i];
      IndexOfAppend(s, y, r[i]);
    }
  }

  lemma AppendNewWithin<T>(s: seq<T>, y: T, r: seq<T>)
    requires Within(r, s) && Within(s, r)
    ensures Within(r + [y], s + [y]) && Within(s + [y], r + [y])
  {
    var t, q := s + [y], r + [y];
    forall i | 0 <= i < |t|
      ensures t[i] in q
    {
      if i < |s| {
        assert s[i] in r;
        var k :| 0 <= k < |r| && r[k] == s[i];
        assert q[k] == t[i];
      } else {
        assert q[|r|] == y;
      }
    }
    forall i | 0 <= i < |q|
      ensures q[i] in t
    {
      if i < |r| {
        assert r[i] in s;
        var k :| 0 <= k < |s| && s[k] == r[i];
        assert t[k] == q[i];
      } else {
        assert t[|s|] == y;
      }
    }
  }

  /** `s.slice(0, n)` for `n >= 0`: the first `min(n, |s|)` elements. */
  function Take<T>(s: seq<T>, n: nat): (r: seq<T>)
    ensures |r| == if |s| < n then |s| else n
    ensures forall i :: 0 <= i < |r| ==> r[i] == s[i]
  {
    if |s| <= n then s else s[..n]
  }

  /** `s.slice(-n)` for `n > 0`: the last `min(n, |s|)` elements. */
  function TakeLast<T>(s: seq<T>, n: nat): (r: seq<T>)
    requires n > 0
    ensures |r| == if |s| < n then |s| else n
    ensures forall i :: 0 <= i < |r| ==> r[i] == s[|s| - |r| + i]
  {
    if |s| <= n then s else s[|s| - n..]
  }

  /** `s.map(f)`. */
  function Map<T, U>(s: seq<T>, f: T -> U): (r: seq<U>)
    ensures |r| == |s|
    ensures forall i :: 0 <= i < |s| ==> r[i] == f(s[i])
  {
    if s == [] then [] else [f(s[0])] + Map(s[1..], f)
  }
}
