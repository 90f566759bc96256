/**
 * The array operations the components rely on, stated once: `Array.prototype.filter`
 * and the insertion-ordered de-duplication of `[...new Set(xs)]`.
 */
module Seqs {

  /** `s.filter(p)`: the elements that satisfy `p`, in order. */
  function Filter<T>(s: seq<T>, p: T -> bool): (r: seq<T>)
    ensures |r| <= |s|
  {
    if s == [] then []
    else if p(s[0]) then [s[0]] + Filter(s[1..], p)
    else Filter(s[1..], p)
  }

  /** An element is kept iff it occurs in the input and satisfies the predicate. */
  lemma {:induction false} FilterMembership<T>(s: seq<T>, p: T -> bool, x: T)
    ensures x in Filter(s, p) <==> x in s && p(x)
  {
    if s != [] {
      FilterMembership(s[1..], p, x);
      assert s == [s[0]] + s[1..];
    }
  }

  /** Filtering `s + [x]` filters `s`, then keeps `x` if it qualifies. */
  lemma {:induction false} FilterAppend<T>(s: seq<T>, p: T -> bool, x: T)
    ensures Filter(s + [x], p) == Filter(s, p) + (if p(x) then [x] else [])
  {
    if s == [] {
      assert [x][1..] == [];
    } else {
      FilterAppend(s[1..], p, x);
      assert (s + [x])[1..] == s[1..] + [x];
    }
  }

  /** Filtering with a predicate every element meets changes nothing. */
  lemma {:induction false} FilterAll<T>(s: seq<T>, p: T -> bool)
    requires forall i :: 0 <= i < |s| ==> p(s[i])
    ensures Filter(s, p) == s
  {
    if s != [] {
      FilterAll(s[1..], p);
      assert s == [s[0]] + s[1..];
    }
  }

  /** Two predicates that agree on every element filter alike. */
  lemma {:induction false} FilterCongruence<T>(s: seq<T>, p: T -> bool, q: T -> bool)
    requires forall i :: 0 <= i < |s| ==> p(s[i]) == q(s[i])
    ensures Filter(s, p) == Filter(s, q)
  {
    if s != [] {
      FilterCongruence(s[1..], p, q);
    }
  }

  /** `idx` picks `sub` out of `s` at strictly increasing positions. */
  ghost predicate IsEmbedding<T>(sub: seq<T>, s: seq<T>, idx: seq<nat>) {
    |idx| == |sub| &&
    (forall k :: 0 <= k < |idx| ==> idx[k] < |s| && s[idx[k]] == sub[k]) &&
    (forall k, l :: 0 <= k < l < |idx| ==> idx[k] < idx[l])
  }

  /** The filtered list is an order-preserving subsequence of the input. */
  lemma {:induction false} FilterIsSubsequence<T>(s: seq<T>, p: T -> bool) returns (idx: seq<nat>)
    ensures IsEmbedding(Filter(s, p), s, idx)
  {
    if s == [] {
      idx := [];
    } else {
      var rest := FilterIsSubsequence(s[1..], p);
      var tail := Filter(s[1..], p);
      var shifted := seq(|rest|, k requires 0 <= k < |rest| => rest[k] + 1);
      forall k | 0 <= k < |shifted|
        ensures shifted[k] < |s| && s[shifted[k]] == tail[k]
      {
        assert s[1..][rest[k]] == tail[k];
      }
      if p(s[0]) {
        idx := [0] + shifted;
        assert Filter(s, p) == [s[0]] + tail;
        forall k | 0 <= k < |idx|
          ensures idx[k] < |s| && s[idx[k]] == Filter(s, p)[k]
        {
          if k > 0 {
            assert idx[k] == shifted[k - 1];
          }
        }
      } else {
        idx := shifted;
        assert Filter(s, p) == tail;
      }
    }
  }

  /**
   * `[...new Set(xs)]`: the distinct values in insertion order. A `Set` keeps
   * the first insertion of each value, so an element is appended only when it
   * has not been seen before.
   */
  function Dedupe<T(==)>(xs: seq<T>): (r: seq<T>)
    ensures |r| <= |xs|
  {
    if xs == [] then []
    else
      var d := Dedupe(xs[..|xs| - 1]);
      if xs[|xs| - 1] in d then d else d + [xs[|xs| - 1]]
  }

  /** Inserting into the Set one more value: Dedupe of an extended list. */
  lemma DedupeAppend<T>(xs: seq<T>, x: T)
    ensures Dedupe(xs + [x]) == if x in Dedupe(xs) then Dedupe(xs) else Dedupe(xs) + [x]
  {
    assert (xs + [x])[..|xs|] == xs;
  }

  ghost predicate NoDuplicates<T>(s: seq<T>) {
    forall i, j :: 0 <= i < j < |s| ==> s[i] != s[j]
  }

  /** The index of the first occurrence of `x` in `s`. */
  function FirstIndex<T(==)>(s: seq<T>, x: T): (i: nat)
    requires x in s
    ensures i < |s| && s[i] == x && x !in s[..i]
  {
    if s[0] == x then 0 else 1 + FirstIndex(s[1..], x)
  }

  /** Exactly the values of the input, each once. */
  lemma {:induction false} DedupeElements<T>(xs: seq<T>)
    ensures NoDuplicates(Dedupe(xs))
    ensures forall x :: x in Dedupe(xs) <==> x in xs
  {
    if xs != [] {
      var init := xs[..|xs| - 1];
      DedupeElements(init);
      assert xs == init + [xs[|xs| - 1]];
    }
  }

  lemma DedupeMember<T>(xs: seq<T>, x: T)
    requires x in Dedupe(xs)
    ensures x in xs
  {
    DedupeElements(xs);
  }

  /** The first-occurrence index is the one position holding `x` with no earlier `x`. */
  lemma FirstIndexUnique<T>(s: seq<T>, x: T, i: nat)
    requires i < |s| && s[i] == x && x !in s[..i]
    ensures FirstIndex(s, x) == i
  {
  }

  lemma FirstIndexOfPrefix<T>(init: seq<T>, last: T, x: T)
    requires x in init
    ensures x in init + [last] && FirstIndex(init + [last], x) == FirstIndex(init, x)
  {
    var s := init + [last];
    var i := FirstIndex(init, x);
    assert s[..i] == init[..i];
    FirstIndexUnique(s, x, i);
  }

  /** The elements of `d` occur in `xs`, and in the order of their first occurrences there. */
  ghost predicate InFirstOccurrenceOrder<T>(d: seq<T>, xs: seq<T>) {
    forall i, j :: 0 <= i < j < |d| ==>
      d[i] in xs && d[j] in xs && FirstIndex(xs, d[i]) < FirstIndex(xs, d[j])
  }

  /** Values come out in the order of their first occurrences in the input. */
  lemma {:induction false} DedupeFirstOccurrenceOrder<T>(xs: seq<T>)
    ensures InFirstOccurrenceOrder(Dedupe(xs), xs)
  {
    if xs == [] {
      assert Dedupe(xs) == [];
    } else {
      var init := xs[..|xs| - 1];
      var last := xs[|xs| - 1];
      assert xs == init + [last];
      DedupeFirstOccurrenceOrder(init);
      DedupeElements(init);
      DedupeElements(xs);
      var d := Dedupe(xs);
      var di := Dedupe(init);
      assert d == if last in di then di else di + [last];
      forall i, j | 0 <= i < j < |d|
        ensures d[i] in xs && d[j] in xs && FirstIndex(xs, d[i]) < FirstIndex(xs, d[j])
      {
        assert i < |di| && d[i] == di[i];
        DedupeMember(init, d[i]);
        FirstIndexOfPrefix(init, last, d[i]);
        if j < |di| {
          assert d[j] == di[j];
          DedupeMember(init, d[j]);
          FirstIndexOfPrefix(init, last, d[j]);
        } else {
          assert d[j] == last && last !in init;
          FirstIndexUnique(xs, last, |init|);
        }
      }
      assert InFirstOccurrenceOrder(d, xs);
    }
  }
}
