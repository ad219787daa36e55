/**
 * What the quiz relies on from the comparator shuffle of
 * OpeningQuiz.jsx (line 7): whatever order it produces is a permutation.
 * The shuffled sequences themselves are passed into the model as inputs;
 * this module states what "is a permutation" means and proves the two
 * facts the quiz needs about it.
 */
module Shuffle {

  /** No element occurs twice. */
  predicate Distinct<T(==)>(s: seq<T>) {
    forall i, j :: 0 <= i < j < |s| ==> s[i] != s[j]
  }

  /** `s` is an ordering of the indices `0 .. n-1`. */
  predicate IsPermutation(s: seq<nat>, n: nat) {
    && |s| == n
    && Distinct(s)
    && forall i :: 0 <= i < |s| ==> s[i] < n
  }

  /** The elements of `c` in the order the index sequence `p` picks them. */
  function Reindex<T>(c: seq<T>, p: seq<nat>): seq<T>
    requires forall i :: 0 <= i < |p| ==> p[i] < |c|
  {
    seq(|p|, k requires 0 <= k < |p| => c[p[k]])
  }

  ghost function Below(n: nat): set<nat> {
    if n == 0 then {} else Below(n - 1) + {n - 1}
  }

  lemma {:induction false} BelowHas(n: nat, k: nat)
    ensures k in Below(n) <==> k < n
  {
    if n > 0 {
      BelowHas(n - 1, k);
    }
  }

  ghost function Elements(s: seq<nat>): set<nat> {
    set x | x in s
  }

  lemma {:induction false} BelowSize(n: nat)
    ensures |Below(n)| == n
  {
    if n > 0 {
      BelowSize(n - 1);
      BelowHas(n - 1, n - 1);
    }
  }

  lemma {:induction false} DistinctElementsSize(s: seq<nat>)
    requires Distinct(s)
    ensures |Elements(s)| == |s|
  {
    if s == [] {
      assert Elements(s) == {};
    } else {
      var t := s[1..];
      assert Distinct(t) by {
        forall i, j | 0 <= i < j < |t| ensures t[i] != t[j] {
          assert t[i] == s[i + 1] && t[j] == s[j + 1];
        }
      }
      DistinctElementsSize(t);
      assert Elements(s) == {s[0]} + Elements(t) by {
        assert s == [s[0]] + t;
      }
      assert s[0] !in Elements(t) by {
        forall i | 0 <= i < |t| ensures t[i] != s[0] {
          assert t[i] == s[i + 1];
        }
      }
    }
  }

  /** A permutation of `0 .. n-1` contains every index below `n`. */
  lemma {:induction false} PermutationCovers(s: seq<nat>, n: nat)
    requires IsPermutation(s, n)
    ensures forall k :: 0 <= k < n ==> k in s
  {
    var e, b := Elements(s), Below(n);
    BelowSize(n);
    DistinctElementsSize(s);
    forall x | x in e ensures x in b {
      BelowHas(n, x);
    }
    assert e + b == b;
    assert e * b == e;
    assert |b - e| == 0;
    forall k | 0 <= k < n ensures k in s {
      BelowHas(n, k);
      assert k !in b - e;
    }
  }

  /** Dropping the element at position `k` keeps the rest distinct. */
  lemma RemoveAtDistinct(s: seq<nat>, k: nat)
    requires Distinct(s) && k < |s|
    ensures Distinct(s[..k] + s[k + 1..])
  {
    var r := s[..k] + s[k + 1..];
    forall i, j | 0 <= i < j < |r| ensures r[i] != r[j] {
      var i' := if i < k then i else i + 1;
      var j' := if j < k then j else j + 1;
      assert r[i] == s[i'] && r[j] == s[j'] && i' < j';
    }
  }

  lemma ReindexAppend<T>(c: seq<T>, a: seq<nat>, b: seq<nat>)
    requires forall i :: 0 <= i < |a| ==> a[i] < |c|
    requires forall i :: 0 <= i < |b| ==> b[i] < |c|
    ensures Reindex(c, a + b) == Reindex(c, a) + Reindex(c, b)
  {
  }

  lemma ReindexShorter<T>(c: seq<T>, m: nat, q: seq<nat>)
    requires m <= |c|
    requires forall i :: 0 <= i < |q| ==> q[i] < m
    ensures Reindex(c, q) == Reindex(c[..m], q)
  {
  }

  /** Removing the largest index from a permutation leaves a permutation
      of the smaller range. */
  lemma RemoveLargest(p: seq<nat>, n: nat, k: nat)
    requires IsPermutation(p, n) && k < |p| && p[k] == n - 1
    ensures IsPermutation(p[..k] + p[k + 1..], n - 1)
  {
    var q := p[..k] + p[k + 1..];
    RemoveAtDistinct(p, k);
    forall i | 0 <= i < |q| ensures q[i] < n - 1 {
      var i' := if i < k then i else i + 1;
      assert q[i] == p[i'] && i' != k;
    }
  }

  /** Splitting the picked sequence around position `k`. */
  lemma ReindexSplit<T>(c: seq<T>, p: seq<nat>, k: nat)
    requires forall i :: 0 <= i < |p| ==> p[i] < |c|
    requires k < |p|
    ensures multiset(Reindex(c, p))
         == multiset(Reindex(c, p[..k] + p[k + 1..])) + multiset{c[p[k]]}
  {
    var a, b := p[..k], p[k + 1..];
    assert p == a + [p[k]] + b;
    ReindexAppend(c, a + [p[k]], b);
    ReindexAppend(c, a, [p[k]]);
    ReindexAppend(c, a, b);
  }

  /** Picking the elements of `c` by a permutation of its indices keeps
      every element with its multiplicity. */
  lemma {:induction false} ReindexIsPermutation<T>(c: seq<T>, p: seq<nat>)
    requires IsPermutation(p, |c|)
    ensures multiset(Reindex(c, p)) == multiset(c)
  {
    if c != [] {
      var m := |c| - 1;
      PermutationCovers(p, |c|);
      assert m in p;
      var k :| 0 <= k < |p| && p[k] == m;
      var q := p[..k] + p[k + 1..];
      RemoveLargest(p, |c|, k);
      ReindexIsPermutation(c[..m], q);
      ReindexShorter(c, m, q);
      ReindexSplit(c, p, k);
      assert c == c[..m] + [c[m]];
    }
  }

  /** Picking distinct positions of a sequence without repeats gives a
      sequence without repeats. */
  lemma ReindexDistinct<T>(c: seq<T>, p: seq<nat>)
    requires forall i :: 0 <= i < |p| ==> p[i] < |c|
    requires Distinct(c) && Distinct(p)
    ensures Distinct(Reindex(c, p))
  {
  }
}
