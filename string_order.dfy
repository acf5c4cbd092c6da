/**
 The default order of JavaScript's `Array.prototype.sort` on strings (compare
 character by character; a proper prefix comes first) and a sort by that
 order, used to turn a dictionary's keys into chart labels.
 */
module StringOrder {
  import opened Sums

  /** `a < b` on strings: at the first differing position `a` has the smaller character, or `a` is a proper prefix of `b`. */
  predicate LexLess(a: string, b: string)
    decreases |a|
  {
    if a == [] then b != []
    else if b == [] then false
    else if a[0] != b[0] then a[0] < b[0]
    else LexLess(a[1..], b[1..])
  }

  /** `a` comes before `b` or is `b`. */
  predicate LexLeq(a: string, b: string)
  {
    a == b || LexLess(a, b)
  }

  /** No string comes before itself. */
  lemma {:induction false} LexLessIrreflexive(a: string)
    ensures !LexLess(a, a)
    decreases |a|
  {
    if a != [] {
      LexLessIrreflexive(a[1..]);
    }
  }

  /** The order never runs both ways. */
  lemma {:induction false} LexLessAsymmetric(a: string, b: string)
    ensures !(LexLess(a, b) && LexLess(b, a))
    decreases |a|
  {
    if a != [] && b != [] && a[0] == b[0] {
      LexLessAsymmetric(a[1..], b[1..]);
    }
  }

  /** The order is transitive. */
  lemma {:induction false} LexLessTransitive(a: string, b: string, c: string)
    requires LexLess(a, b) && LexLess(b, c)
    ensures LexLess(a, c)
    decreases |a|
  {
    if a != [] && a[0] == b[0] && b[0] == c[0] {
      LexLessTransitive(a[1..], b[1..], c[1..]);
    }
  }

  /** Two different strings are always ordered one way or the other. */
  lemma {:induction false} LexLessTotal(a: string, b: string)
    requires a != b
    ensures LexLess(a, b) || LexLess(b, a)
    decreases |a|
  {
    if a != [] && b != [] && a[0] == b[0] {
      assert a == [a[0]] + a[1..] && b == [b[0]] + b[1..];
      LexLessTotal(a[1..], b[1..]);
    }
  }

  /** `LexLeq` is transitive. */
  lemma LexLeqTransitive(a: string, b: string, c: string)
    requires LexLeq(a, b) && LexLeq(b, c)
    ensures LexLeq(a, c)
  {
    if a != b && b != c {
      LexLessTransitive(a, b, c);
    }
  }

  /** Every later element is at least every earlier one. */
  predicate NonDescending(s: seq<string>)
  {
    forall i, j :: 0 <= i < j < |s| ==> LexLeq(s[i], s[j])
  }

  /** Every later element comes strictly after every earlier one; in particular no element repeats. */
  predicate Ascending(s: seq<string>)
  {
    forall i, j :: 0 <= i < j < |s| ==> LexLess(s[i], s[j])
  }

  /** Inserts `x` before the first element it does not come after. */
  function Insert(x: string, s: seq<string>): seq<string>
  {
    if s == [] then [x]
    else if LexLeq(x, s[0]) then [x] + s
    else [s[0]] + Insert(x, s[1..])
  }

  /** Sorts by insertion, the last element last. */
  function Sort(s: seq<string>): seq<string>
    decreases |s|
  {
    if s == [] then [] else Insert(s[|s| - 1], Sort(s[..|s| - 1]))
  }

  /** Inserting adds exactly one copy of `x`. */
  lemma {:induction false} InsertPermutes(x: string, s: seq<string>)
    ensures multiset(Insert(x, s)) == multiset(s) + multiset{x}
    decreases |s|
  {
    if s != [] && !LexLeq(x, s[0]) {
      InsertPermutes(x, s[1..]);
      assert s == [s[0]] + s[1..];
    }
  }

  /** A sorted sequence stays sorted after dropping its first element. */
  lemma TailNonDescending(s: seq<string>)
    requires s != [] && NonDescending(s)
    ensures NonDescending(s[1..])
  {
    var rest := s[1..];
    forall i, j | 0 <= i < j < |rest| ensures LexLeq(rest[i], rest[j]) {
      assert rest[i] == s[i + 1] && rest[j] == s[j + 1];
    }
  }

  /** Inserting into a sorted sequence keeps it sorted. */
  lemma {:induction false} InsertSorted(x: string, s: seq<string>)
    requires NonDescending(s)
    ensures NonDescending(Insert(x, s))
    decreases |s|
  {
    if s == [] {
    } else if LexLeq(x, s[0]) {
      var r := [x] + s;
      forall i, j | 0 <= i < j < |r| ensures LexLeq(r[i], r[j]) {
        if i == 0 && j > 1 {
          LexLeqTransitive(x, s[0], s[j - 1]);
        }
      }
    } else {
      var rest := s[1..];
      TailNonDescending(s);
      InsertSorted(x, rest);
      InsertPermutes(x, rest);
      var tail := Insert(x, rest);
      LexLessTotal(x, s[0]);
      forall k | 0 <= k < |tail| ensures LexLeq(s[0], tail[k]) {
        assert tail[k] in multiset(tail);
        if tail[k] != x {
          assert tail[k] in multiset(rest);
          var m :| 0 <= m < |rest| && rest[m] == tail[k];
          assert s[m + 1] == tail[k];
        }
      }
      var r := [s[0]] + tail;
      forall i, j | 0 <= i < j < |r| ensures LexLeq(r[i], r[j]) {
        if i > 0 {
          assert r[i] == tail[i - 1] && r[j] == tail[j - 1];
        } else {
          assert r[j] == tail[j - 1];
        }
      }
    }
  }

  /** Sorting gives a non-descending rearrangement of its input. */
  lemma {:induction false} SortSorted(s: seq<string>)
    ensures NonDescending(Sort(s))
    ensures multiset(Sort(s)) == multiset(s)
    decreases |s|
  {
    if s != [] {
      var init := s[..|s| - 1];
      SortSorted(init);
      InsertSorted(s[|s| - 1], Sort(init));
      InsertPermutes(s[|s| - 1], Sort(init));
      assert s == init + [s[|s| - 1]];
    }
  }

  /** A non-descending sequence without repeats is ascending. */
  lemma DistinctSortedAscending(s: seq<string>)
    requires NonDescending(s)
    requires forall i, j :: 0 <= i < j < |s| ==> s[i] != s[j]
    ensures Ascending(s)
  {
  }

  /** `a` and `b` hold the same strings. */
  predicate SameElements(a: seq<string>, b: seq<string>)
  {
    (forall x :: x in a ==> x in b) && (forall x :: x in b ==> x in a)
  }

  /** Only the empty sequence holds the same strings as the empty sequence. */
  lemma SameElementsEmpty(a: seq<string>, b: seq<string>)
    requires SameElements(a, b)
    ensures a == [] <==> b == []
  {
    if a != [] {
      assert a[0] in a;
    }
    if b != [] {
      assert b[0] in b;
    }
  }

  /** Two ascending sequences holding the same strings are the same sequence. */
  lemma {:induction false} AscendingUnique(a: seq<string>, b: seq<string>)
    requires Ascending(a) && Ascending(b)
    requires SameElements(a, b)
    ensures a == b
    decreases |a|
  {
    SameElementsEmpty(a, b);
    if a != [] && b != [] {
      if a[0] != b[0] {
        assert a[0] in b && b[0] in a;
        var i :| 0 <= i < |a| && a[i] == b[0];
        var j :| 0 <= j < |b| && b[j] == a[0];
        LexLessAsymmetric(a[0], b[0]);
        assert false;
      }
      var a', b' := a[1..], b[1..];
      forall x | x in a' ensures x in b' {
        var i :| 0 <= i < |a'| && a'[i] == x;
        assert a[i + 1] == x && x in a;
        var j :| 0 <= j < |b| && b[j] == x;
        LexLessIrreflexive(x);
        assert j != 0;
        assert b'[j - 1] == x;
      }
      forall x | x in b' ensures x in a' {
        var j :| 0 <= j < |b'| && b'[j] == x;
        assert b[j + 1] == x && x in b;
        var i :| 0 <= i < |a| && a[i] == x;
        LexLessIrreflexive(x);
        assert i != 0;
        assert a'[i - 1] == x;
      }
      AscendingUnique(a', b');
    }
  }

  /** A duplicate-free sequence holds each string at most once. */
  lemma {:induction false} DistinctCountsOne(s: seq<string>, x: string)
    requires Distinct(s)
    ensures multiset(s)[x] <= 1
    decreases |s|
  {
    if s != [] {
      var rest := s[1..];
      assert s == [s[0]] + rest;
      assert Distinct(rest) by {
        forall i, j | 0 <= i < j < |rest| ensures rest[i] != rest[j] {
          assert rest[i] == s[i + 1] && rest[j] == s[j + 1];
        }
      }
      DistinctCountsOne(rest, x);
      if x == s[0] {
        assert x !in rest by {
          forall k | 0 <= k < |rest| ensures rest[k] != x {
            assert rest[k] == s[k + 1];
          }
        }
      }
    }
  }

  /** A string at two positions is counted twice. */
  lemma RepeatCountsTwo(s: seq<string>, i: nat, j: nat)
    requires i < j < |s| && s[i] == s[j]
    ensures multiset(s)[s[i]] >= 2
  {
    var front, back := s[..j], s[j..];
    assert s == front + back;
    assert front[i] == s[i] && back[0] == s[i];
    assert s[i] in multiset(front) && s[i] in multiset(back);
  }

  /**
   `Object.keys(d).sort()`: the keys of a dictionary, listed once each in any
   order, come out strictly ascending and still listed once each.
   */
  lemma SortKeys(keys: seq<string>)
    requires Distinct(keys)
    ensures Ascending(Sort(keys))
    ensures Distinct(Sort(keys))
    ensures SameElements(Sort(keys), keys)
  {
    var r := Sort(keys);
    SortSorted(keys);
    forall i, j | 0 <= i < j < |r| ensures r[i] != r[j] {
      if r[i] == r[j] {
        RepeatCountsTwo(r, i, j);
        DistinctCountsOne(keys, r[i]);
        assert false;
      }
    }
    forall x | x in r ensures x in keys {
      assert x in multiset(r);
    }
    forall x | x in keys ensures x in r {
      assert x in multiset(keys);
    }
    DistinctSortedAscending(r);
  }
}
