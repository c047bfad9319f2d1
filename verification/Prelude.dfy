/** Small facts about finite sets of natural numbers that the other modules share. */
module Prelude {

  datatype Option<+T> = None | Some(value: T)

  lemma {:induction false} HasLeast(s: set<nat>) returns (m: nat)
    requires s != {}
    ensures m in s && forall x :: x in s ==> m <= x
  {
    var a :| a in s;
    m := a;
    if s != {a} {
      var k := HasLeast(s - {a});
      m := if a < k then a else k;
      assert forall x :: x in s ==> x == a || x in s - {a};
    }
  }

  lemma LeastExists(s: set<nat>)
    requires s != {}
    ensures exists m :: m in s && forall x :: x in s ==> m <= x
  {
    var m := HasLeast(s);
  }

  function Least(s: set<nat>): (m: nat)
    requires s != {}
    ensures m in s && forall x :: x in s ==> m <= x
  {
    LeastExists(s);
    var m :| m in s && forall x :: x in s ==> m <= x;
    m
  }

  ghost predicate Increasing(q: seq<nat>) {
    forall i, j :: 0 <= i < j < |q| ==> q[i] < q[j]
  }

  /** The elements of `s` in increasing order. */
  function Ascending(s: set<nat>): (q: seq<nat>)
    ensures |q| == |s|
    ensures forall x :: x in q <==> x in s
    ensures Increasing(q)
  {
    if s == {} then [] else
    var m := Least(s);
    var rest := Ascending(s - {m});
    assert forall x :: x in [m] + rest <==> x == m || x in rest;
    [m] + rest
  }

  function Below(s: set<nat>, x: nat): set<nat> {
    set y | y in s && y < x
  }

  /** The `k` least elements of `s` (all of `s` when it has no more than `k`). */
  function Smallest(s: set<nat>, k: nat): set<nat> {
    set x | x in s && |Below(s, x)| < k
  }

  function Elements(q: seq<nat>): (s: set<nat>)
    ensures forall x :: x in s <==> x in q
  {
    set x | x in q
  }

  lemma {:induction false} DistinctCardinality(q: seq<nat>)
    requires Increasing(q)
    ensures |Elements(q)| == |q|
  {
    if q == [] {
      assert Elements(q) == {};
    } else {
      var init, last := q[..|q| - 1], q[|q| - 1];
      DistinctCardinality(init);
      assert q == init + [last];
      assert Elements(q) == Elements(init) + {last};
      assert last !in Elements(init);
    }
  }

  lemma PrefixHasSmaller(q: seq<nat>, i: nat, x: nat)
    requires Increasing(q) && i < |q|
    ensures x in q[..i] <==> x in q && x < q[i]
  {
    if x in q[..i] {
      var j :| 0 <= j < i && q[..i][j] == x;
      assert q[j] == x;
    }
    if x in q && x < q[i] {
      var j :| 0 <= j < |q| && q[j] == x;
      assert j < i && q[..i][j] == x;
    }
  }

  /** Position `i` of the sorted list holds the element with exactly `i` smaller ones. */
  lemma {:induction false} RankOfAscending(s: set<nat>, i: nat)
    requires i < |s|
    ensures |Below(s, Ascending(s)[i])| == i
  {
    var q := Ascending(s);
    assert Increasing(q[..i]);
    DistinctCardinality(q[..i]);
    forall x ensures x in q[..i] <==> x in s && x < q[i] { PrefixHasSmaller(q, i, x); }
    hide Increasing;
    assert Below(s, q[i]) == Elements(q[..i]);
  }

  /** Cutting the sorted list at `k` leaves exactly the `k` least elements. */
  lemma {:induction false} CutIsSmallest(s: set<nat>, k: nat)
    ensures Elements(Ascending(s)[..if k < |s| then k else |s|]) == Smallest(s, k)
  {
    var q := Ascending(s);
    var n := if k < |s| then k else |s|;
    forall x ensures x in q[..n] <==> x in Smallest(s, k) {
      if x in s {
        assert x in q;
        var i :| 0 <= i < |q| && q[i] == x;
        RankOfAscending(s, i);
        if i < n { assert q[..n][i] == x; }
        if x in q[..n] {
          var j :| 0 <= j < n && q[j] == x;
          assert j == i;
        }
      } else if x in q[..n] {
        assert x in q;
      }
    }
  }

  lemma SmallestOfFew(s: set<nat>, k: nat)
    requires |s| <= k
    ensures Smallest(s, k) == s
  {
    forall x | x in s ensures |Below(s, x)| < k {
      SubsetCardinality(Below(s, x), s - {x});
    }
  }

  lemma {:induction false} SubsetCardinality<T>(a: set<T>, b: set<T>)
    requires a <= b
    ensures |a| <= |b|
    ensures |a| == |b| ==> a == b
  {
    assert b == a + (b - a);
    assert |b| == |a| + |b - a|;
  }

  lemma {:induction false} SmallestIsFew(s: set<nat>, k: nat)
    ensures |Smallest(s, k)| <= k
  {
    CutIsSmallest(s, k);
    DistinctCardinality(Ascending(s)[..if k < |s| then k else |s|]);
  }
}
