/** The package dependency cycle report: the component search over mutable state, and the independent description of its
    answer. */
module DependencyCycles {
  import opened Options
  import opened Ordering
  import opened Digraph
  import opened SearchState

  function AddEdge(g: Graph, a: string, b: string): Graph {
    var h := g[a := (if a in g then g[a] else {}) + {b}];
    if b in h then h else h[b := {}]
  }

  /** The adjacency map built from the edge list; targets become nodes as well. */
  function BuildGraph(edges: seq<(string, string)>): Graph {
    if edges == [] then map[]
    else AddEdge(BuildGraph(edges[..|edges| - 1]), edges[|edges| - 1].0, edges[|edges| - 1].1)
  }

  lemma AddEdgeAdds(g: Graph, a: string, b: string)
    requires Closed(g)
    ensures Closed(AddEdge(g, a, b))
    ensures forall v, w :: Edge(AddEdge(g, a, b), v, w) <==> Edge(g, v, w) || (v, w) == (a, b)
    ensures AddEdge(g, a, b).Keys == g.Keys + {a, b}
  {
  }

  /** `v` is an end of some edge. */
  ghost predicate Touched(edges: seq<(string, string)>, v: string) {
    exists e :: e in edges && (v == e.0 || v == e.1)
  }

  lemma TouchedLast(edges: seq<(string, string)>, v: string)
    requires edges != []
    ensures Touched(edges, v) <==>
            Touched(edges[..|edges| - 1], v) || v == edges[|edges| - 1].0 || v == edges[|edges| - 1].1
  {
    var n := |edges| - 1;
    assert edges == edges[..n] + [edges[n]];
    assert edges[n] in edges;
    if e :| e in edges && (v == e.0 || v == e.1) {
      assert e in edges[..n] || e == edges[n];
    }
  }

  lemma {:induction false} BuildGraphEdges(edges: seq<(string, string)>)
    ensures Closed(BuildGraph(edges))
    ensures forall a, b :: Edge(BuildGraph(edges), a, b) <==> (a, b) in edges
    ensures forall v :: v in BuildGraph(edges) <==> Touched(edges, v)
    decreases |edges|, 1
  {
    if edges == [] {
      assert BuildGraph(edges) == map[];
    } else {
      BuildGraphLast(edges);
    }
  }

  lemma {:induction false} BuildGraphLast(edges: seq<(string, string)>)
    requires edges != []
    ensures Closed(BuildGraph(edges))
    ensures forall a, b :: Edge(BuildGraph(edges), a, b) <==> (a, b) in edges
    ensures forall v :: v in BuildGraph(edges) <==> Touched(edges, v)
    decreases |edges|, 0
  {
    hide AddEdge, Closed, Touched, Edge;
    var n := |edges| - 1;
    var g := BuildGraph(edges[..n]);
    BuildGraphEdges(edges[..n]);
    AddEdgeAdds(g, edges[n].0, edges[n].1);
    assert edges == edges[..n] + [edges[n]];
    forall a, b ensures Edge(BuildGraph(edges), a, b) <==> (a, b) in edges {
      assert Edge(g, a, b) <==> (a, b) in edges[..n];
    }
    forall v ensures v in BuildGraph(edges) <==> Touched(edges, v) { TouchedLast(edges, v); }
  }

  /** Edge lists with the same edges build the same graph, whatever their order. */
  lemma BuildGraphOrder(xs: seq<(string, string)>, ys: seq<(string, string)>)
    requires Elements(xs) == Elements(ys)
    ensures BuildGraph(xs) == BuildGraph(ys)
  {
    hide BuildGraph;
    var g, h := BuildGraph(xs), BuildGraph(ys);
    BuildGraphEdges(xs);
    BuildGraphEdges(ys);
    forall e ensures e in xs <==> e in ys { assert e in Elements(xs) <==> e in Elements(ys); }
    assert g.Keys == h.Keys;
    forall v | v in g ensures g[v] == h[v] {
      forall w ensures w in g[v] <==> w in h[v] { assert Edge(g, v, w) <==> Edge(h, v, w); }
    }
  }

  /** A sorted list of at least two different names. */
  ghost predicate Listing(c: seq<string>) {
    |c| >= 2 && Distinct(c) && Ascending(StringLeq, c)
  }

  /** The report lists every component of at least two nodes once, in sorted order. */
  ghost predicate IsReport(g: Graph, report: seq<seq<string>>) {
    && (forall c :: c in report ==> Listing(c) && IsComponent(g, Elements(c)))
    && Distinct(report) && Ascending(ListLeq, report)
    && (forall c :: IsComponent(g, c) && |c| >= 2 ==> exists r :: r in report && Elements(r) == c)
  }

  lemma ReportMember(g: Graph, a: seq<seq<string>>, b: seq<seq<string>>, c: seq<string>)
    requires IsReport(g, a) && IsReport(g, b) && c in a
    ensures c in b
  {
    DistinctSize(c);
    var r :| r in b && Elements(r) == Elements(c);
    StringOrder();
    forall x ensures x in r <==> x in c { assert x in Elements(r) <==> x in Elements(c); }
    SortedUnique(StringLeq, r, c);
  }

  /** The description determines the report, so the edge order cannot matter. */
  lemma ReportUnique(xs: seq<(string, string)>, ys: seq<(string, string)>, a: seq<seq<string>>, b: seq<seq<string>>)
    requires Elements(xs) == Elements(ys)
    requires IsReport(BuildGraph(xs), a) && IsReport(BuildGraph(ys), b)
    ensures a == b
  {
    BuildGraphOrder(xs, ys);
    var g := BuildGraph(xs);
    forall c ensures c in a <==> c in b {
      if c in a { ReportMember(g, a, b, c); }
      if c in b { ReportMember(g, b, a, c); }
    }
    ListOrder();
    SortedUnique(ListLeq, a, b);
  }

  /** `sorted` applied to a set of names. */
  method SortedNames(names: set<string>) returns (r: seq<string>)
    ensures Elements(r) == names && Distinct(r) && Ascending(StringLeq, r)
  {
    var rest, s := names, [];
    while rest != {}
      invariant rest <= names && Elements(s) == names - rest && Distinct(s)
      decreases rest
    {
      var x :| x in rest;
      assert x !in s by { assert x !in Elements(s); }
      assert Elements(s + [x]) == Elements(s) + {x};
      s, rest := s + [x], rest - {x};
    }
    StringOrder();
    SortKeeps(StringLeq, s);
    r := Sort(StringLeq, s);
  }

  /** `listed` holds exactly the members of `closed` with more than one node, each sorted. */
  ghost predicate Listed(listed: seq<seq<string>>, closed: seq<set<string>>) {
    && (forall c :: c in listed ==> Listing(c) && Elements(c) in closed)
    && (forall c :: c in closed && |c| >= 2 ==> exists r :: r in listed && Elements(r) == c)
    && Distinct(listed)
  }

  /** Closing one more component, disjoint from the earlier ones, keeps the listing exact. */
  lemma ListedGrows(listed: seq<seq<string>>, closed: seq<set<string>>, component: seq<string>)
    requires Listed(listed, closed) && Distinct(component) && component != []
    requires forall c :: c in closed ==> c !! Elements(component)
    ensures Listed(if |component| > 1 then listed + [Sort(StringLeq, component)] else listed,
                   closed + [Elements(component)])
  {
    DistinctSize(component);
    if |component| > 1 {
      ListedAdds(listed, closed, component);
    } else {
      var c := Elements(component);
      forall d | d in closed + [c] && |d| >= 2 ensures exists x :: x in listed && Elements(x) == d {
        assert d in closed;
      }
    }
  }

  lemma ListedAdds(listed: seq<seq<string>>, closed: seq<set<string>>, component: seq<string>)
    requires Listed(listed, closed) && Distinct(component) && |component| > 1
    requires forall c :: c in closed ==> c !! Elements(component)
    ensures Listed(listed + [Sort(StringLeq, component)], closed + [Elements(component)])
  {
    var r, c := Sort(StringLeq, component), Elements(component);
    assert Listing(r) && Elements(r) == c by {
      StringOrder();
      SortKeeps(StringLeq, component);
    }
    var out := listed + [r];
    assert r in out;
    forall x | x in out ensures Listing(x) && Elements(x) in closed + [c] {
      if x in listed { assert Elements(x) in closed; } else { assert x == r; }
    }
    forall d | d in closed + [c] && |d| >= 2 ensures exists x :: x in out && Elements(x) == d {
      if d in closed {
        var x :| x in listed && Elements(x) == d;
        assert x in out;
      }
    }
    assert component[0] in c;
    assert forall x :: x in listed ==> component[0] !in Elements(x);
    assert r !in listed;
  }

  class CycleFinder {
    const graph: Graph
    var index: int
    var indices: map<string, int>
    var lowLinks: map<string, int>
    var stack: seq<string>
    var stacked: set<string>
    var components: seq<seq<string>>
    ghost var closed: seq<set<string>>

    constructor (g: Graph)
      requires Closed(g)
      ensures graph == g && Valid({}) && indices == map[]
    {
      graph := g;
      index, indices, lowLinks, stack, stacked, components := 0, map[], map[], [], {}, [];
      closed := [];
    }

    ghost function View(): Search
      reads this
    {
      Search(indices, index, stack, closed)
    }

    ghost predicate Valid(open: set<string>)
      reads this
    {
      && Inv(graph, open, View())
      && lowLinks.Keys == indices.Keys && stacked == Elements(stack)
      && Listed(components, closed)
    }

    /** The links already recorded are kept. */
    twostate predicate KeepsLinks()
      reads this
    {
      forall v :: v in old(lowLinks) ==> v in lowLinks && lowLinks[v] == old(lowLinks)[v]
    }

    method Connect(node: string, ghost open: set<string>)
      requires Valid(open) && node in graph && node !in indices
      requires forall x :: x in open ==> Reach(graph, x, node)
      modifies this
      ensures Valid(open) && KeepsLinks() && node in lowLinks
      ensures Returned(graph, old(View()), View(), node, lowLinks[node])
      decreases graph.Keys - indices.Keys, 0
    {
      hide Inv, Listed, Returned, LowBounds, LowReached;
      ghost var s := View();
      EnterLoop(graph, open, s, node);
      indices, lowLinks := indices[node := index], lowLinks[node := index];
      index := index + 1;
      stack := stack + [node];
      stacked := stacked + {node};
      assert View() == Push(s, node);

      var targets := SortedNames(graph[node]);
      ghost var pending := graph[node];
      for k := 0 to |targets|
        invariant Valid(open + {node}) && KeepsLinks() && node in lowLinks
        invariant Looping(graph, open, s, View(), node, lowLinks[node], pending)
        invariant forall w :: w in pending ==> w in targets[k..]
      {
        assert targets[k] in Elements(targets);
        Visit(node, targets[k], s, open, pending);
        pending := pending - {targets[k]};
      }
      assert pending == {};
      Leave(node, s, open);
    }

    /** One iteration of the loop over the targets of `node`. */
    method Visit(node: string, target: string, ghost s: Search, ghost open: set<string>, ghost pending: set<string>)
      requires Valid(open + {node}) && node in lowLinks && Edge(graph, node, target)
      requires Looping(graph, open, s, View(), node, lowLinks[node], pending)
      modifies this
      ensures Valid(open + {node}) && node in lowLinks
      ensures forall v :: v in old(lowLinks) && v != node ==> v in lowLinks && lowLinks[v] == old(lowLinks)[v]
      ensures Looping(graph, open, s, View(), node, lowLinks[node], pending - {target})
      decreases graph.Keys - indices.Keys, 1
    {
      ghost var t := View();
      if target !in indices {
        ReachEdge(graph, node, target);
        forall x | x in open + {node} ensures Reach(graph, x, target) {
          if x != node { ReachTrans(graph, x, node, target); }
        }
        Connect(target, open + {node});
        LoopCall(graph, open, s, t, View(), node, lowLinks[node], lowLinks[target], pending, target);
        lowLinks := lowLinks[node := Min(lowLinks[node], lowLinks[target])];
      } else if target in stacked {
        LoopSeen(graph, open, s, t, node, lowLinks[node], Min(lowLinks[node], indices[target]), pending, target);
        lowLinks := lowLinks[node := Min(lowLinks[node], indices[target])];
      } else {
        LoopSeen(graph, open, s, t, node, lowLinks[node], lowLinks[node], pending, target);
      }
    }

    /** The end of a call: either keep `node` on the stack or close its component. */
    method Leave(node: string, ghost s: Search, ghost open: set<string>)
      requires Valid(open + {node}) && node in lowLinks
      requires Looping(graph, open, s, View(), node, lowLinks[node], {})
      modifies this`stack, this`stacked, this`components, this`closed
      ensures Valid(open)
      ensures Returned(graph, s, View(), node, lowLinks[node])
    {
      hide Inv, Returned, LowBounds, LowReached;
      if lowLinks[node] != indices[node] {
        LeaveOnStack(graph, open, s, View(), node, lowLinks[node]);
        return;
      }
      ghost var t, base := View(), |s.stack|;
      LeaveClosed(graph, open, s, t, node, lowLinks[node]);
      StackApart(graph, open, t, base);
      var component := PopStack(node, base);
      ListedGrows(components, closed, component);
      closed := closed + [Elements(component)];
      if |component| > 1 {
        components := components + [Sort(StringLeq, component)];
      }
      assert View() == Pop(t, base);
    }

    /** Takes the stack down to and including `node`, which sits at position `base`. */
    method PopStack(node: string, ghost base: nat) returns (component: seq<string>)
      requires base < |stack| && stack[base] == node && Distinct(stack) && stacked == Elements(stack)
      modifies this`stack, this`stacked
      ensures stack == old(stack)[..base] && stacked == Elements(stack)
      ensures component != [] && Distinct(component) && Elements(component) == Elements(old(stack)[base..])
    {
      component := [];
      while true
        invariant base < |stack| <= |old(stack)| && stack == old(stack)[..|stack|] && stacked == Elements(stack)
        invariant Distinct(component) && Elements(component) == Elements(old(stack)[|stack|..])
        decreases |stack|
      {
        var top := |stack| - 1;
        var member := stack[top];
        assert old(stack)[top..] == [member] + old(stack)[top + 1..];
        assert member !in component by { assert member !in Elements(component); }
        assert Elements(component + [member]) == Elements(component) + {member};
        assert stack == stack[..top] + [member];
        assert member !in stack[..top];
        assert stacked - {member} == Elements(stack[..top]);
        stack := stack[..top];
        stacked := stacked - {member};
        component := component + [member];
        if member == node { break; }
      }
    }
  }

  /** The report of `_dependency_cycles`. */
  method Cycles(edges: seq<(string, string)>) returns (report: seq<seq<string>>)
    ensures IsReport(BuildGraph(edges), report)
  {
    hide Inv, Listed, Returned, IsReport, IsComponent;
    var g := BuildGraph(edges);
    BuildGraphEdges(edges);
    var finder := new CycleFinder(g);
    var nodes := SortedNames(g.Keys);
    for k := 0 to |nodes|
      invariant finder.graph == g && finder.Valid({})
      invariant forall i :: 0 <= i < k ==> nodes[i] in finder.indices
    {
      assert nodes[k] in Elements(nodes);
      if nodes[k] !in finder.indices {
        finder.Connect(nodes[k], {});
      }
    }
    report := Sort(ListLeq, finder.components);
    AllClosed(g, finder.View(), nodes);
    ListedIsReport(g, finder.components, finder.closed);
  }

  /** When every node is numbered and no call is open, the closed sets are all the components. */
  lemma AllClosed(g: Graph, s: Search, nodes: seq<string>)
    requires Inv(g, {}, s) && Elements(nodes) == g.Keys
    requires forall i :: 0 <= i < |nodes| ==> nodes[i] in s.idx
    ensures forall c :: IsComponent(g, c) <==> c in s.closed
  {
    QuietIsEmpty(g, s);
    forall c | IsComponent(g, c) ensures c in s.closed {
      var v :| v in c;
      assert v in Elements(nodes);
      assert v in Finished(s);
      var d :| d in s.closed && v in d;
      ComponentsDisjoint(g, c, d, v);
    }
  }

  lemma ListedIsReport(g: Graph, listed: seq<seq<string>>, closed: seq<set<string>>)
    requires Listed(listed, closed)
    requires forall c :: IsComponent(g, c) <==> c in closed
    ensures IsReport(g, Sort(ListLeq, listed))
  {
    ListOrder();
    SortKeeps(ListLeq, listed);
    forall c | IsComponent(g, c) && |c| >= 2 ensures exists r :: r in Sort(ListLeq, listed) && Elements(r) == c {
      var r :| r in listed && Elements(r) == c;
      assert r in Sort(ListLeq, listed);
    }
  }

  // -- Edges as text ----------------------------------------------------------------------

  predicate ArrowAt(e: string, i: nat) { i + 1 < |e| && e[i] == '-' && e[i + 1] == '>' }

  /** The position of the first arrow, or the length of the text. */
  function FirstArrow(e: string, i: nat := 0): (k: nat)
    requires i <= |e|
    ensures i <= k <= |e| && (forall j :: i <= j < k ==> !ArrowAt(e, j)) && (k < |e| ==> ArrowAt(e, k))
    decreases |e| - i
  {
    if i == |e| || ArrowAt(e, i) then i else FirstArrow(e, i + 1)
  }

  /** `split("->", 1)`; an edge without an arrow cannot be unpacked. */
  function SplitEdge(e: string): Option<(string, string)> {
    var k := FirstArrow(e);
    if k < |e| then Some((e[..k], e[k + 2..])) else None
  }

  /** How the dependency list writes an edge. */
  function JoinEdge(source: string, target: string): string { source + "->" + target }

  /** Splitting undoes joining exactly when the source has no arrow of its own. */
  lemma SplitJoin(source: string, target: string)
    ensures SplitEdge(JoinEdge(source, target)) == Some((source, target)) <==>
              forall i :: 0 <= i < |source| ==> !ArrowAt(source, i)
  {
    var e := JoinEdge(source, target);
    assert ArrowAt(e, |source|) && e[..|source|] == source && e[|source| + 2..] == target;
    forall i | 0 <= i < |source| ensures ArrowAt(e, i) <==> ArrowAt(source, i) { }
  }

  /** `_dependency_cycles` on the edge list as text. */
  method CyclesOfText(edges: seq<string>) returns (report: Option<seq<seq<string>>>, ghost pairs: seq<(string, string)>)
    ensures report.None? <==> exists e :: e in edges && SplitEdge(e).None?
    ensures report.Some? ==>
              |pairs| == |edges| && (forall i :: 0 <= i < |edges| ==> SplitEdge(edges[i]) == Some(pairs[i]))
                             && IsReport(BuildGraph(pairs), report.value)
  {
    hide IsReport, BuildGraph, SplitEdge;
    var split := [];
    for i := 0 to |edges|
      invariant |split| == i && forall j :: 0 <= j < i ==> SplitEdge(edges[j]) == Some(split[j])
    {
      var pair := SplitEdge(edges[i]);
      if pair.None? { assert edges[i] in edges; return None, []; }
      split := split + [pair.value];
    }
    var found := Cycles(split);
    return Some(found), split;
  }
}
