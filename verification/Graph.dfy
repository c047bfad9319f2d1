/** Undirected graphs over ids, given as sets of normalised pairs, and connectivity by paths. */
module Graph {

  type Pair = (nat, nat)

  /** The normal form of an undirected pair: smaller end first. */
  function Norm(a: nat, b: nat): (p: Pair)
    ensures p.0 <= p.1 && (p == (a, b) || p == (b, a))
  {
    if a <= b then (a, b) else (b, a)
  }

  predicate Adjacent(edges: set<Pair>, x: nat, y: nat) {
    Norm(x, y) in edges
  }

  ghost predicate IsPath(edges: set<Pair>, p: seq<nat>, x: nat, y: nat) {
    && p != [] && p[0] == x && p[|p| - 1] == y
    && forall i :: 0 <= i < |p| - 1 ==> Adjacent(edges, p[i], p[i + 1])
  }

  ghost predicate Connected(edges: set<Pair>, x: nat, y: nat) {
    exists p :: IsPath(edges, p, x, y)
  }

  lemma Reflexive(edges: set<Pair>, x: nat)
    ensures Connected(edges, x, x)
  {
    assert IsPath(edges, [x], x, x);
  }

  lemma EdgeConnects(edges: set<Pair>, x: nat, y: nat)
    requires Adjacent(edges, x, y)
    ensures Connected(edges, x, y)
  {
    assert IsPath(edges, [x, y], x, y);
  }

  lemma Transitive(edges: set<Pair>, x: nat, y: nat, z: nat)
    requires Connected(edges, x, y) && Connected(edges, y, z)
    ensures Connected(edges, x, z)
  {
    var p :| IsPath(edges, p, x, y);
    var q :| IsPath(edges, q, y, z);
    assert IsPath(edges, p + q[1..], x, z);
  }

  ghost function Reversed(p: seq<nat>): seq<nat> {
    seq(|p|, i requires 0 <= i < |p| => p[|p| - 1 - i])
  }

  lemma Symmetric(edges: set<Pair>, x: nat, y: nat)
    requires Connected(edges, x, y)
    ensures Connected(edges, y, x)
  {
    var p :| IsPath(edges, p, x, y);
    var r := Reversed(p);
    forall i | 0 <= i < |r| - 1 ensures Adjacent(edges, r[i], r[i + 1]) {
      var j := |p| - 2 - i;
      assert Adjacent(edges, p[j], p[j + 1]);
    }
    assert IsPath(edges, r, y, x);
  }

  /** Path induction: a property closed under edges spreads along every path. */
  lemma {:induction false} SpreadAlong(edges: set<Pair>, holds: iset<nat>, p: seq<nat>, x: nat, y: nat)
    requires IsPath(edges, p, x, y) && x in holds
    requires forall u, v :: u in holds && Adjacent(edges, u, v) ==> v in holds
    ensures y in holds
  {
    if |p| > 1 {
      assert Adjacent(edges, p[0], p[1]);
      SpreadAlong(edges, holds, p[1..], p[1], y);
    }
  }

  lemma Spread(edges: set<Pair>, holds: iset<nat>, x: nat, y: nat)
    requires Connected(edges, x, y) && x in holds
    requires forall u, v :: u in holds && Adjacent(edges, u, v) ==> v in holds
    ensures y in holds
  {
    var p :| IsPath(edges, p, x, y);
    SpreadAlong(edges, holds, p, x, y);
  }

  /** More edges never disconnect anything. */
  lemma Monotone(edges: set<Pair>, more: set<Pair>, x: nat, y: nat)
    requires edges <= more && Connected(edges, x, y)
    ensures Connected(more, x, y)
  {
    var p :| IsPath(edges, p, x, y);
    assert IsPath(more, p, x, y);
  }

  /** A vertex that no edge touches is connected to nothing else. */
  lemma Isolated(edges: set<Pair>, x: nat, y: nat)
    requires Connected(edges, x, y)
    requires forall v :: Adjacent(edges, x, v) ==> v == x
    ensures y == x
  {
    Spread(edges, iset{x}, x, y);
  }

  /** The members of `ids` that `x` reaches. */
  ghost function Component(ids: set<nat>, edges: set<Pair>, x: nat): (c: set<nat>)
    requires x in ids
    ensures x in c
  {
    Reflexive(edges, x);
    set y | y in ids && Connected(edges, x, y)
  }

  /** Connected vertices have one component, unconnected ones have different components. */
  lemma ComponentsCoincide(ids: set<nat>, edges: set<Pair>, x: nat, y: nat)
    requires x in ids && y in ids
    ensures Component(ids, edges, x) == Component(ids, edges, y) <==> Connected(edges, x, y)
  {
    if Connected(edges, x, y) {
      Symmetric(edges, x, y);
      forall z | z in ids ensures Connected(edges, x, z) <==> Connected(edges, y, z) {
        if Connected(edges, x, z) { Transitive(edges, y, x, z); }
        if Connected(edges, y, z) { Transitive(edges, x, y, z); }
      }
    }
    Reflexive(edges, y);
    assert y in Component(ids, edges, y);
  }
}
