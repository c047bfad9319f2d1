/** The engine's union-find, whose representative is always the least member of its class. */
module UnionFinds {
  import opened Graph

  type Forest = map<nat, nat>

  /** Every parent is a member, and every non-root's parent is strictly smaller. */
  ghost predicate Descending(parent: Forest) {
    forall x {:trigger Up(parent, x)} :: x in parent ==> Up(parent, x) in parent && Up(parent, x) <= x
  }

  function Up(parent: Forest, x: nat): nat
    requires x in parent
  {
    parent[x]
  }

  ghost function Root(parent: Forest, x: nat): nat
    requires Descending(parent) && x in parent
    decreases x
  {
    if Up(parent, x) == x then x else Root(parent, Up(parent, x))
  }

  lemma {:induction false} RootIsRoot(parent: Forest, x: nat)
    requires Descending(parent) && x in parent
    ensures Root(parent, x) in parent && Root(parent, x) <= x
    ensures Up(parent, Root(parent, x)) == Root(parent, x)
    decreases x
  {
    if Up(parent, x) != x { RootIsRoot(parent, Up(parent, x)); }
  }

  /** `labels` is the partition the forest stands for: each member labelled with its root. */
  ghost predicate Labels(parent: Forest, labels: map<nat, nat>)
    requires Descending(parent)
  {
    && labels.Keys == parent.Keys
    && forall x {:trigger labels[x]} :: x in parent ==> labels[x] == Root(parent, x)
  }

  lemma LabelStep(parent: Forest, labels: map<nat, nat>, x: nat)
    requires Descending(parent) && Labels(parent, labels) && x in parent
    ensures Up(parent, x) in parent && Up(parent, x) <= x && labels[Up(parent, x)] == labels[x]
    ensures Up(parent, x) == x ==> labels[x] == x
  {
    assert labels[x] == Root(parent, x);
    assert labels[Up(parent, x)] == Root(parent, Up(parent, x));
  }

  lemma Repoint(parent: Forest, x: nat, r: nat)
    requires Descending(parent) && x in parent && r in parent && r <= x
    ensures Descending(parent[x := r])
  {
    var after := parent[x := r];
    forall z {:trigger Up(after, z)} | z in after ensures Up(after, z) in after && Up(after, z) <= z {
      assert z != x ==> Up(after, z) == Up(parent, z);
    }
  }

  /** Re-pointing a node at its own root changes nobody's root. */
  lemma {:induction false} Compress(parent: Forest, x: nat, y: nat)
    requires Descending(parent) && x in parent && y in parent
    ensures Descending(parent[x := Root(parent, x)])
    ensures Root(parent[x := Root(parent, x)], y) == Root(parent, y)
    decreases y
  {
    RootIsRoot(parent, x);
    Repoint(parent, x, Root(parent, x));
    var after := parent[x := Root(parent, x)];
    if y == x {
      assert Up(after, y) == y || Root(after, y) == Root(after, Up(after, y));
    } else if Up(parent, y) != y {
      Compress(parent, x, Up(parent, y));
    }
  }

  lemma CompressLabels(parent: Forest, labels: map<nat, nat>, x: nat)
    requires Descending(parent) && Labels(parent, labels) && x in parent
    ensures Descending(parent[x := labels[x]]) && Labels(parent[x := labels[x]], labels)
  {
    Compress(parent, x, x);
    forall y {:trigger labels[y]} | y in parent ensures Root(parent[x := labels[x]], y) == labels[y] {
      Compress(parent, x, y);
    }
  }

  /** Hanging root `hi` under the smaller root `lo` moves exactly `hi`'s class to `lo`. */
  lemma {:induction false} Hang(parent: Forest, lo: nat, hi: nat, y: nat)
    requires Descending(parent) && lo in parent && hi in parent && y in parent
    requires Up(parent, lo) == lo && Up(parent, hi) == hi && lo < hi
    ensures Descending(parent[hi := lo])
    ensures Root(parent[hi := lo], y) == if Root(parent, y) == hi then lo else Root(parent, y)
    decreases y
  {
    Repoint(parent, hi, lo);
    var after := parent[hi := lo];
    if y == hi {
      assert Root(after, y) == Root(after, lo);
    } else if Up(parent, y) != y {
      Hang(parent, lo, hi, Up(parent, y));
    }
  }

  /** What a union of `a` and `b` does to the partition: the smaller of the two roots takes over. */
  ghost predicate Joined(labels: map<nat, nat>, after: map<nat, nat>, a: nat, b: nat)
    requires a in labels && b in labels
  {
    var low := if labels[a] <= labels[b] then labels[a] else labels[b];
    && after.Keys == labels.Keys
    && forall y {:trigger after[y]} :: y in labels ==>
      after[y] == if labels[y] == labels[a] || labels[y] == labels[b] then low else labels[y]
  }

  lemma Join(labels: map<nat, nat>, a: nat, b: nat) returns (after: map<nat, nat>)
    requires a in labels && b in labels
    ensures Joined(labels, after, a, b)
  {
    var low := if labels[a] <= labels[b] then labels[a] else labels[b];
    after := map y | y in labels :: if labels[y] == labels[a] || labels[y] == labels[b] then low else labels[y];
  }

  lemma HangLabel(parent: Forest, labels: map<nat, nat>, after: map<nat, nat>, a: nat, b: nat, lo: nat, hi: nat, y: nat)
    requires Descending(parent) && Labels(parent, labels) && a in parent && b in parent && y in parent
    requires lo in parent && hi in parent && Up(parent, lo) == lo && Up(parent, hi) == hi
    requires (labels[a] == lo && labels[b] == hi) || (labels[a] == hi && labels[b] == lo)
    requires lo < hi && Joined(labels, after, a, b) && Descending(parent[hi := lo])
    ensures Root(parent[hi := lo], y) == after[y]
  {
    Hang(parent, lo, hi, y);
    assert Root(parent, y) == labels[y];
  }

  lemma HangLabels(parent: Forest, labels: map<nat, nat>, after: map<nat, nat>, a: nat, b: nat, lo: nat, hi: nat)
    requires Descending(parent) && Labels(parent, labels) && a in parent && b in parent
    requires (labels[a] == lo && labels[b] == hi) || (labels[a] == hi && labels[b] == lo)
    requires lo < hi && Joined(labels, after, a, b)
    ensures Descending(parent[hi := lo]) && Labels(parent[hi := lo], after)
    ensures after.Keys == parent[hi := lo].Keys == parent.Keys == labels.Keys
  {
    hide *;
    JoinedKeys(parent, labels, after, a, b);
    EndsAreRoots(parent, labels, a, b, lo, hi);
    Repoint(parent, hi, lo);
    forall y {:trigger after[y]} | y in parent ensures Root(parent[hi := lo], y) == after[y] {
      HangLabel(parent, labels, after, a, b, lo, hi, y);
    }
    assert parent[hi := lo].Keys == parent.Keys;
    LabelsIntro(parent[hi := lo], after);
  }

  lemma JoinedKeys(parent: Forest, labels: map<nat, nat>, after: map<nat, nat>, a: nat, b: nat)
    requires Descending(parent) && Labels(parent, labels) && a in parent && b in parent
    requires Joined(labels, after, a, b)
    ensures after.Keys == labels.Keys == parent.Keys
  {
  }

  lemma LabelsIntro(parent: Forest, labels: map<nat, nat>)
    requires Descending(parent) && labels.Keys == parent.Keys
    requires forall y {:trigger labels[y]} :: y in parent ==> labels[y] == Root(parent, y)
    ensures Labels(parent, labels)
  {
  }

  lemma EndsAreRoots(parent: Forest, labels: map<nat, nat>, a: nat, b: nat, lo: nat, hi: nat)
    requires Descending(parent) && Labels(parent, labels) && a in parent && b in parent
    requires (labels[a] == lo && labels[b] == hi) || (labels[a] == hi && labels[b] == lo)
    ensures lo in parent && hi in parent && Up(parent, lo) == lo && Up(parent, hi) == hi
  {
    RootIsRoot(parent, a);
    RootIsRoot(parent, b);
  }

  /** Two members share a label exactly when `edges` connects them. */
  ghost predicate Represents(labels: map<nat, nat>, edges: set<Pair>) {
    && (forall x, y :: Adjacent(edges, x, y) ==> x in labels)
    && forall x, y :: x in labels && y in labels ==> (labels[x] == labels[y] <==> Connected(edges, x, y))
  }

  /** Before any union every member is alone. */
  lemma RepresentsNothing(labels: map<nat, nat>)
    requires forall x :: x in labels ==> labels[x] == x
    ensures Represents(labels, {})
  {
    forall x, y | x in labels && y in labels ensures labels[x] == labels[y] <==> Connected({}, x, y) {
      if Connected({}, x, y) { Isolated({}, x, y); } else { Reflexive({}, x); }
    }
  }

  lemma JoinedByPath(labels: map<nat, nat>, after: map<nat, nat>, edges: set<Pair>, a: nat, b: nat, x: nat, y: nat)
    requires a in labels && b in labels && x in labels && y in labels && Represents(labels, edges)
    requires Joined(labels, after, a, b) && after[x] == after[y]
    ensures Connected(edges + {Norm(a, b)}, x, y)
  {
    var more := edges + {Norm(a, b)};
    if labels[x] == labels[y] {
      Monotone(edges, more, x, y);
    } else {
      var c, d := if labels[x] == labels[a] then a else b, if labels[x] == labels[a] then b else a;
      assert Connected(edges, x, c) && Connected(edges, d, y);
      Monotone(edges, more, x, c);
      Monotone(edges, more, d, y);
      assert Adjacent(more, c, d);
      EdgeConnects(more, c, d);
      Transitive(more, x, c, d);
      Transitive(more, x, d, y);
    }
  }

  lemma PathJoins(labels: map<nat, nat>, after: map<nat, nat>, edges: set<Pair>, a: nat, b: nat, x: nat, y: nat)
    requires a in labels && b in labels && x in labels && y in labels && Represents(labels, edges)
    requires Joined(labels, after, a, b) && Connected(edges + {Norm(a, b)}, x, y)
    ensures after[x] == after[y]
  {
    var more := edges + {Norm(a, b)};
    var holds := iset v: nat | v in after && after[v] == after[x];
    forall u, v | u in holds && Adjacent(more, u, v) ensures v in holds {
      if Adjacent(edges, u, v) {
        assert Adjacent(edges, v, u);
        EdgeConnects(edges, u, v);
      }
    }
    Spread(more, holds, x, y);
  }

  /** Joining the classes of `a` and `b` represents exactly one more edge. */
  lemma JoinedAddsEdge(labels: map<nat, nat>, after: map<nat, nat>, edges: set<Pair>, a: nat, b: nat)
    requires a in labels && b in labels && Represents(labels, edges) && Joined(labels, after, a, b)
    ensures Represents(after, edges + {Norm(a, b)})
  {
    var more := edges + {Norm(a, b)};
    forall x, y | x in labels && y in labels ensures after[x] == after[y] <==> Connected(more, x, y) {
      if Connected(more, x, y) {
        PathJoins(labels, after, edges, a, b, x, y);
      } else if after[x] == after[y] {
        JoinedByPath(labels, after, edges, a, b, x, y);
      }
    }
    forall x, y | Adjacent(more, x, y) ensures x in after {
      if Norm(x, y) != Norm(a, b) { assert Adjacent(edges, x, y); }
    }
  }

  /** The root is the least member of its class, so it is the class's canonical name. */
  lemma RootIsLeast(parent: Forest, labels: map<nat, nat>, edges: set<Pair>, x: nat)
    requires Descending(parent) && Labels(parent, labels) && Represents(labels, edges) && x in parent
    ensures labels[x] in Component(parent.Keys, edges, x)
    ensures forall y :: y in Component(parent.Keys, edges, x) ==> labels[x] <= y
  {
    RootIsRoot(parent, x);
    assert labels[labels[x]] == labels[x];
    forall y | y in Component(parent.Keys, edges, x) ensures labels[x] <= y {
      assert labels[y] == labels[x];
      RootIsRoot(parent, y);
    }
  }

  class UnionFind {
    var parent: Forest
    ghost var labels: map<nat, nat>

    ghost predicate Valid() reads this {
      labels.Keys == parent.Keys && Descending(parent) && Labels(parent, labels)
    }

    constructor (items: set<nat>)
      ensures Valid() && labels.Keys == items && Represents(labels, {})
    {
      parent := map x | x in items :: x;
      labels := map x | x in items :: x;
      new;
      RepresentsNothing(labels);
    }

    /** Walk to the root, then re-point every node of the walk at it. */
    method Find(x: nat) returns (root: nat)
      requires Valid() && x in labels
      modifies this`parent
      ensures Valid() && root == labels[x]
      ensures parent.Keys == old(parent.Keys)
    {
      hide Root, Labels, Descending;
      root := x;
      LabelStep(parent, labels, x);
      while Up(parent, root) != root
        invariant labels.Keys == parent.Keys == old(parent.Keys)
        invariant Descending(parent) && Labels(parent, labels)
        invariant root in parent && labels[root] == labels[x]
        decreases root
      {
        LabelStep(parent, labels, root);
        root := Up(parent, root);
      }
      LabelStep(parent, labels, root);
      var node := x;
      while Up(parent, node) != root
        invariant labels.Keys == parent.Keys == old(parent.Keys)
        invariant Descending(parent) && Labels(parent, labels)
        invariant node in parent && labels[node] == root
        decreases node
      {
        LabelStep(parent, labels, node);
        CompressLabels(parent, labels, node);
        parent, node := parent[node := root], Up(parent, node);
      }
    }

    method Union(a: nat, b: nat)
      requires Valid() && a in labels && b in labels
      modifies this
      ensures Valid() && labels.Keys == old(labels.Keys) && Joined(old(labels), labels, a, b)
    {
      hide Labels;
      var ra := Find(a);
      var rb := Find(b);
      if ra != rb {
        var lo, hi := if ra < rb then ra else rb, if ra < rb then rb else ra;
        ghost var joined := Join(labels, a, b);
        HangLabels(parent, labels, joined, a, b, lo, hi);
        parent, labels := parent[hi := lo], joined;
      }
    }
  }
}
