/**
 * Facts about sequences shared by the screens: duplicate-freedom, the first
 * position of an element, subsequences, and `[...new Set(xs)]`.
 */
module Seqs {

  ghost predicate Distinct<T>(keys: seq<T>) {
    forall i, j :: 0 <= i < j < |keys| ==> keys[i] != keys[j]
  }

  /** The position of `k` in `keys`. */
  function IndexOf<T(==)>(keys: seq<T>, k: T): (i: nat)
    requires k in keys
    ensures i < |keys| && keys[i] == k
    ensures forall j :: 0 <= j < i ==> keys[j] != k
  {
    if keys[0] == k then 0 else 1 + IndexOf(keys[1..], k)
  }

  /** The tail of a list of distinct keys is distinct. */
  lemma DistinctTail<T>(keys: seq<T>)
    requires keys != [] && Distinct(keys)
    ensures Distinct(keys[1..]) && keys[0] !in keys[1..]
  {
    forall i, j | 0 <= i < j < |keys[1..]| ensures keys[1..][i] != keys[1..][j] {
      assert keys[1..][i] == keys[i + 1] && keys[1..][j] == keys[j + 1];
    }
    forall j | 0 <= j < |keys[1..]| ensures keys[1..][j] != keys[0] {
      assert keys[1..][j] == keys[j + 1];
    }
  }

  /** A key of the tail sits one place further in `keys` than in `keys[1..]`. */
  lemma IndexOfTail<T>(keys: seq<T>, k: T)
    requires keys != [] && Distinct(keys) && k in keys[1..]
    ensures k in keys && IndexOf(keys, k) == 1 + IndexOf(keys[1..], k)
  {
    DistinctTail(keys);
  }

  /** `xs` is `ys` with some elements left out (matched greedily from the left). */
  predicate IsSubsequence<T(==)>(xs: seq<T>, ys: seq<T>) {
    if xs == [] then true
    else if ys == [] then false
    else if xs[0] == ys[0] then IsSubsequence(xs[1..], ys[1..])
    else IsSubsequence(xs, ys[1..])
  }

  /** A subsequence of a duplicate-free sequence is duplicate-free. */
  lemma {:induction false} SubsequenceOfDistinct<T>(xs: seq<T>, ys: seq<T>)
    requires IsSubsequence(xs, ys) && Distinct(ys)
    ensures Distinct(xs) && forall i :: 0 <= i < |xs| ==> xs[i] in ys
  {
    if xs != [] {
      DistinctTail(ys);
      if xs[0] == ys[0] {
        SubsequenceOfDistinct(xs[1..], ys[1..]);
        forall i, j | 0 <= i < j < |xs| ensures xs[i] != xs[j] {
          assert xs[j] == xs[1..][j - 1] && xs[j] in xs[1..];
          if i > 0 {
            assert xs[i] == xs[1..][i - 1];
          }
        }
        forall i | 0 <= i < |xs| ensures xs[i] in ys {
          if i > 0 {
            assert xs[i] == xs[1..][i - 1];
          }
        }
      } else {
        SubsequenceOfDistinct(xs, ys[1..]);
      }
    }
  }


  /** The first position of `x` in `init` is also its first position in `init + [y]`. */
  lemma {:induction false} IndexOfAppend<T>(init: seq<T>, y: T, x: T)
    requires x in init
    ensures x in init + [y] && IndexOf(init + [y], x) == IndexOf(init, x)
  {
    if init[0] != x {
      assert (init + [y])[1..] == init[1..] + [y];
      IndexOfAppend(init[1..], y, x);
    }
  }

  /**
   * `[...new Set(xs)]`: the distinct elements of `xs`. A `Set` keeps insertion
   * order and ignores an element it already holds, so this is a left fold
   * that appends each element not yet present.
   */
  function Dedup<T(==)>(xs: seq<T>): (r: seq<T>)
    ensures Distinct(r)
    ensures forall i :: 0 <= i < |r| ==> r[i] in xs
    ensures forall i :: 0 <= i < |xs| ==> xs[i] in r
    ensures |r| <= |xs|
  {
    if xs == [] then []
    else
      var r := Dedup(xs[..|xs| - 1]);
      if xs[|xs| - 1] in r then r else r + [xs[|xs| - 1]]
  }

  /** The distinct elements come in the order of their first occurrence in `xs`. */
  lemma {:induction false} DedupFirstOccurrenceOrder<T>(xs: seq<T>)
    ensures forall i, j :: 0 <= i < j < |Dedup(xs)| ==>
      Dedup(xs)[i] in xs && Dedup(xs)[j] in xs && IndexOf(xs, Dedup(xs)[i]) < IndexOf(xs, Dedup(xs)[j])
  {
    if xs != [] {
      var init, last := xs[..|xs| - 1], xs[|xs| - 1];
      assert xs == init + [last];
      DedupFirstOccurrenceOrder(init);
      var r, ri := Dedup(xs), Dedup(init);
      forall i, j | 0 <= i < j < |r|
        ensures r[i] in xs && r[j] in xs && IndexOf(xs, r[i]) < IndexOf(xs, r[j])
      {
        assert r[i] == ri[i] && ri[i] in ri;
        IndexOfAppend(init, last, ri[i]);
        if j < |ri| {
          assert r[j] == ri[j] && ri[j] in ri;
          IndexOfAppend(init, last, ri[j]);
        } else {
          // r[j] is the newly added `last`, first seen at the end of `xs`
          assert r[j] == last && last !in init;
          assert IndexOf(xs, last) == |init| by {
            assert forall k :: 0 <= k < |init| ==> xs[k] == init[k];
          }
        }
      }
      assert forall i, j :: 0 <= i < j < |Dedup(xs)| ==>
        Dedup(xs)[i] in xs && Dedup(xs)[j] in xs && IndexOf(xs, Dedup(xs)[i]) < IndexOf(xs, Dedup(xs)[j]);
    } else {
      assert Dedup(xs) == [];
    }
  }
}
