/**
 Sums over an enumeration of keys. The engine's dictionaries have no order of
 their own, so "the sum over all dates" (or symbols, or coins) is stated as a
 sum over any duplicate-free sequence that covers the keys.
 */
module Sums {

  /** `f(ks[0]) + f(ks[1]) + ...` */
  function SumOf<K>(ks: seq<K>, f: K -> real): real
  {
    if ks == [] then 0.0 else f(ks[0]) + SumOf(ks[1..], f)
  }

  /** The plain sum of a sequence of numbers. */
  function Sum(xs: seq<real>): real
  {
    if xs == [] then 0.0 else xs[0] + Sum(xs[1..])
  }

  /** No key occurs twice. */
  predicate Distinct<K(==)>(ks: seq<K>)
  {
    forall i, j :: 0 <= i < j < |ks| ==> ks[i] != ks[j]
  }

  /** `ks` lists every element of `s` exactly once, as `Object.keys` does for a dictionary. */
  predicate Enumerates<K(==)>(ks: seq<K>, s: set<K>)
  {
    Distinct(ks) && (forall k :: k in ks ==> k in s) && (forall k :: k in s ==> k in ks)
  }

  /** Only the empty listing enumerates the empty set. */
  lemma EnumeratesEmpty<K>(ks: seq<K>, s: set<K>)
    requires Enumerates(ks, s)
    ensures ks == [] <==> s == {}
  {
    if ks != [] {
      assert ks[0] in s;
    }
  }

  /**
   If `f` and `g` agree on every listed key except `k`, where `f` is larger by
   `v`, then the sum of `f` exceeds the sum of `g` by `v` exactly when `k` is
   listed (a duplicate-free listing counts it once).
   */
  lemma {:induction false} SumOfShift<K>(ks: seq<K>, f: K -> real, g: K -> real, k: K, v: real)
    requires Distinct(ks)
    requires forall x :: x in ks ==> f(x) == g(x) + (if x == k then v else 0.0)
    ensures SumOf(ks, f) == SumOf(ks, g) + (if k in ks then v else 0.0)
  {
    if ks != [] {
      var rest := ks[1..];
      assert Distinct(rest) by {
        forall i, j | 0 <= i < j < |rest| ensures rest[i] != rest[j] {
          assert rest[i] == ks[i + 1] && rest[j] == ks[j + 1];
        }
      }
      assert forall x :: x in rest ==> x in ks;
      SumOfShift(rest, f, g, k, v);
      assert k in ks <==> k == ks[0] || k in rest;
    }
  }

  /** Two functions that agree on every listed key have the same sum. */
  lemma {:induction false} SumOfCongruent<K>(ks: seq<K>, f: K -> real, g: K -> real)
    requires forall x :: x in ks ==> f(x) == g(x)
    ensures SumOf(ks, f) == SumOf(ks, g)
  {
    if ks != [] {
      assert forall x :: x in ks[1..] ==> x in ks;
      SumOfCongruent(ks[1..], f, g);
    }
  }

  /** A function that is zero on every listed key sums to zero. */
  lemma {:induction false} SumOfZero<K>(ks: seq<K>, f: K -> real)
    requires forall x :: x in ks ==> f(x) == 0.0
    ensures SumOf(ks, f) == 0.0
  {
    if ks != [] {
      assert forall x :: x in ks[1..] ==> x in ks;
      SumOfZero(ks[1..], f);
    }
  }

  /** Summing a sequence built by looking each key up equals summing the lookups. */
  lemma {:induction false} SumOfLookups<K>(ks: seq<K>, f: K -> real, xs: seq<real>)
    requires |xs| == |ks|
    requires forall i :: 0 <= i < |ks| ==> xs[i] == f(ks[i])
    ensures Sum(xs) == SumOf(ks, f)
  {
    if ks != [] {
      SumOfLookups(ks[1..], f, xs[1..]);
    }
  }
}
