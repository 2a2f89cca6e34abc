/** Finite directed graphs, reachability and strongly connected components. */
module Digraph {

  type Graph = map<string, set<string>>

  /** Every edge target is itself a node. */
  ghost predicate Closed(g: Graph) {
    forall v, w :: v in g && w in g[v] ==> w in g
  }

  ghost predicate Edge(g: Graph, a: string, b: string) { a in g && b in g[a] }

  ghost predicate ReachIn(g: Graph, a: string, b: string, n: nat)
    decreases n
  {
    if n == 0 then a == b else exists m :: Edge(g, a, m) && ReachIn(g, m, b, n - 1)
  }

  /** A directed path of any length leads from `a` to `b`. */
  ghost predicate Reach(g: Graph, a: string, b: string) {
    exists n: nat :: ReachIn(g, a, b, n)
  }

  ghost predicate Mutual(g: Graph, a: string, b: string) {
    Reach(g, a, b) && Reach(g, b, a)
  }

  /** `c` is the set of all nodes mutually reachable with each of its members. */
  ghost predicate IsComponent(g: Graph, c: set<string>) {
    && c != {} && c <= g.Keys
    && forall a, b :: a in c && b in g ==> (b in c <==> Mutual(g, a, b))
  }

  lemma ReachRefl(g: Graph, a: string)
    ensures Reach(g, a, a)
  {
    assert ReachIn(g, a, a, 0);
  }

  lemma ReachEdge(g: Graph, a: string, b: string)
    requires Edge(g, a, b)
    ensures Reach(g, a, b)
  {
    assert ReachIn(g, b, b, 0);
    assert ReachIn(g, a, b, 1);
  }

  lemma {:induction false} ReachInAdd(g: Graph, a: string, b: string, c: string, m: nat, n: nat)
    requires ReachIn(g, a, b, m) && ReachIn(g, b, c, n)
    ensures ReachIn(g, a, c, m + n)
    decreases m
  {
    if m > 0 {
      var x :| Edge(g, a, x) && ReachIn(g, x, b, m - 1);
      ReachInAdd(g, x, b, c, m - 1, n);
    }
  }

  lemma ReachTrans(g: Graph, a: string, b: string, c: string)
    requires Reach(g, a, b) && Reach(g, b, c)
    ensures Reach(g, a, c)
  {
    var m: nat :| ReachIn(g, a, b, m);
    var n: nat :| ReachIn(g, b, c, n);
    ReachInAdd(g, a, b, c, m, n);
  }

  /** `s` contains every successor of its members. */
  ghost predicate Sink(g: Graph, s: set<string>) {
    forall v, w :: v in s && Edge(g, v, w) ==> w in s
  }

  lemma {:induction false} SinkTraps(g: Graph, s: set<string>, a: string, b: string, n: nat)
    requires Sink(g, s) && a in s && ReachIn(g, a, b, n)
    ensures b in s
    decreases n
  {
    if n > 0 {
      var x :| Edge(g, a, x) && ReachIn(g, x, b, n - 1);
      SinkTraps(g, s, x, b, n - 1);
    }
  }

  /** Nothing outside a sink is reachable from inside it. */
  lemma SinkReach(g: Graph, s: set<string>, a: string, b: string)
    requires Sink(g, s) && a in s && Reach(g, a, b)
    ensures b in s
  {
    var n: nat :| ReachIn(g, a, b, n);
    SinkTraps(g, s, a, b, n);
  }

  /** Two components that share a node are equal. */
  lemma ComponentsDisjoint(g: Graph, c: set<string>, d: set<string>, v: string)
    requires IsComponent(g, c) && IsComponent(g, d) && v in c && v in d
    ensures c == d
  {
    forall b ensures b in c <==> b in d {
      assert b in g ==> (b in c <==> Mutual(g, v, b));
      assert b in g ==> (b in d <==> Mutual(g, v, b));
    }
  }
}
