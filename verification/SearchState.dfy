/** The invariant of the depth-first component search, on values. */
module SearchState {
  import opened Ordering
  import opened Digraph

  /** Discovery numbers, the node stack, and every component closed so far (singletons included). */
  datatype Search = Search(idx: map<string, int>, next: int, stack: seq<string>, closed: seq<set<string>>)

  /** Numbered nodes that have left the stack. */
  ghost function Finished(s: Search): set<string> { set v | v in s.idx && v !in s.stack }

  ghost predicate Numbered(g: Graph, s: Search) {
    && s.idx.Keys <= g.Keys
    && (forall v :: v in s.idx ==> s.idx[v] < s.next)
    && (forall i :: 0 <= i < |s.stack| ==> s.stack[i] in s.idx)
    && (forall i, j :: 0 <= i < j < |s.stack| ==> Below(s, i, j))
  }

  ghost predicate Below(s: Search, i: nat, j: nat) {
    i < |s.stack| && j < |s.stack| && s.stack[i] in s.idx && s.stack[j] in s.idx
    && s.idx[s.stack[i]] < s.idx[s.stack[j]]
  }

  /** The node at stack position `i` reaches the one at `j`. */
  ghost predicate Up(g: Graph, stack: seq<string>, i: nat, j: nat) {
    i < |stack| && j < |stack| && Reach(g, stack[i], stack[j])
  }

  /** The node at stack position `j` reaches an open call at or below it. */
  ghost predicate Anchored(g: Graph, open: set<string>, stack: seq<string>, j: int)
    requires 0 <= j < |stack|
  {
    exists i :: 0 <= i <= j && stack[i] in open && Reach(g, stack[j], stack[i])
  }

  ghost predicate ClosedOk(g: Graph, s: Search) {
    && (forall c :: c in s.closed ==> IsComponent(g, c) && c <= Finished(s))
    && (forall v :: v in Finished(s) ==> exists c :: c in s.closed && v in c)
  }

  /** `open` is the set of nodes whose call has not returned. */
  ghost predicate Inv(g: Graph, open: set<string>, s: Search) {
    && Closed(g)
    && Numbered(g, s)
    && open <= Elements(s.stack)
    && (forall v, w :: v in s.idx && v !in open && Edge(g, v, w) ==> w in s.idx)
    && Sink(g, Finished(s))
    && (forall i, j :: 0 <= i <= j < |s.stack| ==> Up(g, s.stack, i, j))
    && (forall j :: 0 <= j < |s.stack| ==> Anchored(g, open, s.stack, j))
    && ClosedOk(g, s)
  }

  ghost function Push(s: Search, v: string): Search {
    s.(idx := s.idx[v := s.next], next := s.next + 1, stack := s.stack + [v])
  }

  lemma StackDistinct(g: Graph, s: Search)
    requires Numbered(g, s)
    ensures Distinct(s.stack)
  {
    forall i, j | 0 <= i < j < |s.stack| ensures s.stack[i] != s.stack[j] { assert Below(s, i, j); }
  }

  /** Every stack node reaches `v` when every open call does. */
  lemma StackReaches(g: Graph, open: set<string>, s: Search, j: int, v: string)
    requires Inv(g, open, s) && 0 <= j < |s.stack|
    requires forall x :: x in open ==> Reach(g, x, v)
    ensures Reach(g, s.stack[j], v)
  {
    assert Anchored(g, open, s.stack, j);
    var i :| 0 <= i <= j && s.stack[i] in open && Reach(g, s.stack[j], s.stack[i]);
    ReachTrans(g, s.stack[j], s.stack[i], v);
  }

  /** Entering a call. */
  lemma PushKeeps(g: Graph, open: set<string>, s: Search, v: string)
    requires Inv(g, open, s) && v in g && v !in s.idx
    requires forall x :: x in open ==> Reach(g, x, v)
    ensures Inv(g, open + {v}, Push(s, v))
  {
    var t := Push(s, v);
    assert forall i :: 0 <= i < |s.stack| ==> t.stack[i] == s.stack[i];
    assert Finished(t) == Finished(s);
    forall x | x in open + {v} ensures x in Elements(t.stack) {
      if x != v { assert x in s.stack; }
      assert v == t.stack[|s.stack|];
    }
    forall i, j | 0 <= i < j < |t.stack| ensures Below(t, i, j) {
      assert j < |s.stack| ==> Below(s, i, j);
    }
    forall i, j | 0 <= i <= j < |t.stack| ensures Up(g, t.stack, i, j) {
      if i == |s.stack| {
        ReachRefl(g, v);
      } else if j == |s.stack| {
        StackReaches(g, open, s, i, v);
      } else {
        assert Up(g, s.stack, i, j);
      }
    }
    forall j | 0 <= j < |t.stack| ensures Anchored(g, open + {v}, t.stack, j) {
      if j == |s.stack| {
        ReachRefl(g, v);
        assert t.stack[j] in open + {v};
      } else {
        assert Anchored(g, open, s.stack, j);
        var i :| 0 <= i <= j && s.stack[i] in open && Reach(g, s.stack[j], s.stack[i]);
        assert t.stack[i] in open + {v};
      }
    }
  }

  /** Returning from a call that keeps its node on the stack. */
  lemma StayKeeps(g: Graph, open: set<string>, s: Search, p: nat, q: nat)
    requires q < p < |s.stack| && Inv(g, open + {s.stack[p]}, s)
    requires open <= Elements(s.stack[..p])
    requires forall w :: Edge(g, s.stack[p], w) ==> w in s.idx
    requires Reach(g, s.stack[p], s.stack[q])
    ensures Inv(g, open, s)
  {
    var v := s.stack[p];
    StackDistinct(g, s);
    assert open <= Elements(s.stack);
    var wide := open + {v};
    assert Anchored(g, wide, s.stack, q);
    var o :| 0 <= o <= q && s.stack[o] in wide && Reach(g, s.stack[q], s.stack[o]);
    assert s.stack[o] in open;
    ReachTrans(g, v, s.stack[q], s.stack[o]);
    forall j | 0 <= j < |s.stack| ensures Anchored(g, open, s.stack, j) {
      assert Anchored(g, wide, s.stack, j);
      var i :| 0 <= i <= j && s.stack[i] in wide && Reach(g, s.stack[j], s.stack[i]);
      if s.stack[i] !in open {
        assert i == p;
        ReachTrans(g, s.stack[j], v, s.stack[o]);
      }
    }
  }

  ghost function Pop(s: Search, p: nat): Search
    requires p < |s.stack|
  {
    s.(stack := s.stack[..p], closed := s.closed + [Elements(s.stack[p..])])
  }

  /** What holds just before the nodes from stack position `p` up are closed as one component. */
  ghost predicate Ready(g: Graph, open: set<string>, s: Search, p: nat) {
    && p < |s.stack| && Inv(g, open + {s.stack[p]}, s)
    && open <= Elements(s.stack[..p])
    && (forall x :: x in open ==> Reach(g, x, s.stack[p]))
    && (forall w :: Edge(g, s.stack[p], w) ==> w in s.idx)
    && (forall i, j :: p <= i < |s.stack| && 0 <= j < p ==> !Edge(g, s.stack[i], s.stack[j]))
  }

  lemma PopFinished(g: Graph, open: set<string>, s: Search, p: nat)
    requires Ready(g, open, s, p)
    ensures Finished(Pop(s, p)) == Finished(s) + Elements(s.stack[p..])
    ensures Finished(s) !! Elements(s.stack[p..])
  {
    StackDistinct(g, s);
    assert s.stack == s.stack[..p] + s.stack[p..];
    forall x ensures x in Finished(Pop(s, p)) <==> x in Finished(s) + Elements(s.stack[p..]) {
      if x in s.stack[p..] {
        assert x in s.stack;
        assert x !in s.stack[..p];
      }
    }
  }

  /** The stack repeats no node and is disjoint from what is closed. */
  lemma StackApart(g: Graph, open: set<string>, s: Search, p: nat)
    requires Ready(g, open, s, p)
    ensures Distinct(s.stack)
    ensures forall c :: c in s.closed ==> c !! Elements(s.stack[p..])
  {
    StackDistinct(g, s);
    PopFinished(g, open, s, p);
  }

  lemma PopSink(g: Graph, open: set<string>, s: Search, p: nat)
    requires Ready(g, open, s, p)
    ensures Sink(g, Finished(Pop(s, p)))
  {
    PopFinished(g, open, s, p);
    forall x, w | x in Finished(Pop(s, p)) && Edge(g, x, w) ensures w in Finished(Pop(s, p)) {
      if x in s.stack[p..] {
        var i :| 0 <= i < |s.stack[p..]| && s.stack[p..][i] == x;
        assert x == s.stack[p + i];
        assert w in s.idx by { StackDistinct(g, s); }
        if w in s.stack {
          var j :| 0 <= j < |s.stack| && s.stack[j] == w;
          assert j >= p;
          assert w == s.stack[p..][j - p];
        }
      }
    }
  }

  /** The popped nodes are one maximal strongly connected component. */
  lemma PopIsComponent(g: Graph, open: set<string>, s: Search, p: nat)
    requires Ready(g, open, s, p)
    ensures IsComponent(g, Elements(s.stack[p..]))
  {
    var v, c := s.stack[p], Elements(s.stack[p..]);
    assert v == s.stack[p..][0];
    forall a | a in c ensures a in g && Mutual(g, v, a) {
      var i :| 0 <= i < |s.stack[p..]| && s.stack[p..][i] == a;
      assert a == s.stack[p + i];
      assert Up(g, s.stack, p, p + i);
      ReachRefl(g, v);
      StackReaches(g, open + {v}, s, p + i, v);
    }
    PopFinished(g, open, s, p);
    PopSink(g, open, s, p);
    forall a, b | a in c && b in g ensures b in c <==> Mutual(g, a, b) {
      if b in c {
        ReachTrans(g, a, v, b);
        ReachTrans(g, b, v, a);
      }
      if Mutual(g, a, b) {
        SinkReach(g, Finished(Pop(s, p)), a, b);
        if b in Finished(s) {
          SinkReach(g, Finished(s), b, a);
        }
      }
    }
  }

  /** Returning from a call that closes its component. */
  lemma PopKeeps(g: Graph, open: set<string>, s: Search, p: nat)
    requires Ready(g, open, s, p)
    ensures Inv(g, open, Pop(s, p))
  {
    var t := Pop(s, p);
    var wide := open + {s.stack[p]};
    StackDistinct(g, s);
    PopFinished(g, open, s, p);
    PopSink(g, open, s, p);
    PopIsComponent(g, open, s, p);
    forall i, j | 0 <= i < j < |t.stack| ensures Below(t, i, j) { assert Below(s, i, j); }
    forall i, j | 0 <= i <= j < |t.stack| ensures Up(g, t.stack, i, j) { assert Up(g, s.stack, i, j); }
    forall j | 0 <= j < |t.stack| ensures Anchored(g, open, t.stack, j) {
      assert Anchored(g, wide, s.stack, j);
      var i :| 0 <= i <= j && s.stack[i] in wide && Reach(g, s.stack[j], s.stack[i]);
      assert s.stack[i] in open && t.stack[i] == s.stack[i];
    }
    forall u | u in Finished(t) ensures exists c :: c in t.closed && u in c {
      if u in Finished(s) {
        var c :| c in s.closed && u in c;
        assert c in t.closed;
      } else {
        assert Elements(s.stack[p..]) in t.closed;
      }
    }
    forall u, w | u in t.idx && u !in open && Edge(g, u, w) ensures w in t.idx {
      if u == s.stack[p] { } else { assert u !in wide; }
    }
  }

  /** Numbers never change, numbering goes on, and the old stack stays below the new one. */
  ghost predicate Progress(s: Search, t: Search) {
    && (forall v :: v in s.idx ==> v in t.idx && t.idx[v] == s.idx[v])
    && s.next <= t.next && s.stack <= t.stack
  }

  /** `low` is the number of a stack node that `node` reaches. */
  ghost predicate LowReached(g: Graph, s: Search, node: string, low: int) {
    exists y :: 0 <= y < |s.stack| && s.stack[y] in s.idx && s.idx[s.stack[y]] == low && Reach(g, node, s.stack[y])
  }

  /** No edge runs from stack position `base` or above to a node below it numbered under `low`, except from `node` to a
      `pending` target. */
  ghost predicate LowBounds(g: Graph, s: Search, base: nat, low: int, node: string, pending: set<string>) {
    forall i, j :: base <= i < |s.stack| && 0 <= j < base && Edge(g, s.stack[i], s.stack[j])
                   && !(s.stack[i] == node && s.stack[j] in pending)
                   ==> s.stack[j] in s.idx && low <= s.idx[s.stack[j]]
  }

  /** What a call on `node` that began in `s`, ended in `t` and recorded `low` promises. */
  ghost predicate Returned(g: Graph, s: Search, t: Search, node: string, low: int) {
    && Progress(s, t) && node in t.idx && s.next <= t.idx[node]
    && (node !in t.stack ==> t.stack == s.stack && low == t.idx[node])
    && (node in t.stack ==> LowReached(g, t, node, low))
    && LowBounds(g, t, |s.stack|, low, node, {})
  }

  /** The invariant of the target loop of a call on `node` that began in `s`. */
  ghost predicate Looping(g: Graph, open: set<string>, s: Search, t: Search, node: string, low: int,
                          pending: set<string>) {
    && Inv(g, open + {node}, t) && open <= Elements(s.stack) && node !in s.idx
    && (forall x :: x in open ==> Reach(g, x, node))
    && Progress(s, t) && node in t.idx && t.idx[node] == s.next
    && (forall v :: v in s.idx ==> s.idx[v] < s.next)
    && |s.stack| < |t.stack| && t.stack[|s.stack|] == node
    && (forall w :: Edge(g, node, w) && w !in pending ==> w in t.idx)
    && low <= t.idx[node] && LowReached(g, t, node, low)
    && LowBounds(g, t, |s.stack|, low, node, pending)
  }

  lemma EnterLoop(g: Graph, open: set<string>, s: Search, node: string)
    requires Inv(g, open, s) && node in g && node !in s.idx
    requires forall x :: x in open ==> Reach(g, x, node)
    ensures Looping(g, open, s, Push(s, node), node, s.next, g[node])
  {
    PushKeeps(g, open, s, node);
    ReachRefl(g, node);
    var t := Push(s, node);
    assert t.stack[|s.stack|] == node;
    forall i, j | |s.stack| <= i < |t.stack| && 0 <= j < |s.stack| && Edge(g, t.stack[i], t.stack[j])
      ensures t.stack[i] == node && t.stack[j] in g[node] { }
  }

  function Min(a: int, b: int): int { if a <= b then a else b }

  /** The target had no number: a nested call took the search from `t` to `u`. */
  lemma LoopCall(g: Graph, open: set<string>, s: Search, t: Search, u: Search, node: string, low: int, m: int,
                 pending: set<string>, target: string)
    requires Looping(g, open, s, t, node, low, pending) && Edge(g, node, target) && target !in t.idx
    requires Inv(g, open + {node}, u) && Returned(g, t, u, target, m)
    ensures Looping(g, open, s, u, node, Min(low, m), pending - {target})
  {
    hide LowBounds, Inv, Reach;
    var n := Min(low, m);
    assert forall i :: 0 <= i < |t.stack| ==> u.stack[i] == t.stack[i];
    BoundsAfterCall(g, open, s, t, u, node, low, m, pending, target);
    NumberedBelow(g, open + {node}, t, node);
    if n == low {
      var y :| 0 <= y < |t.stack| && t.stack[y] in t.idx && t.idx[t.stack[y]] == low && Reach(g, node, t.stack[y]);
      assert u.stack[y] == t.stack[y];
    } else {
      assert target in u.stack;
      var y :| 0 <= y < |u.stack| && u.stack[y] in u.idx && u.idx[u.stack[y]] == m && Reach(g, target, u.stack[y]);
      ReachEdge(g, node, target);
      ReachTrans(g, node, target, u.stack[y]);
    }
  }

  lemma NumberedBelow(g: Graph, open: set<string>, s: Search, v: string)
    requires Inv(g, open, s) && v in s.idx
    ensures s.idx[v] < s.next
  {
  }

  lemma BoundsAfterCall(g: Graph, open: set<string>, s: Search, t: Search, u: Search, node: string, low: int, m: int,
                        pending: set<string>, target: string)
    requires Looping(g, open, s, t, node, low, pending) && target !in t.idx && Returned(g, t, u, target, m)
    ensures LowBounds(g, u, |s.stack|, Min(low, m), node, pending - {target})
  {
    hide Reach, LowReached;
    var n, base := Min(low, m), |s.stack|;
    assert forall i :: 0 <= i < |s.stack| ==> t.stack[i] == s.stack[i];
    assert forall i :: 0 <= i < |t.stack| ==> u.stack[i] == t.stack[i];
    forall i, j | base <= i < |u.stack| && 0 <= j < base && Edge(g, u.stack[i], u.stack[j])
                  && !(u.stack[i] == node && u.stack[j] in pending - {target})
      ensures u.stack[j] in u.idx && n <= u.idx[u.stack[j]]
    {
      assert u.stack[j] == t.stack[j] && t.stack[j] in t.idx && t.stack[j] != target;
      if i < |t.stack| { assert t.stack[i] == u.stack[i]; }
    }
  }

  /** The target already had a number. */
  lemma LoopSeen(g: Graph, open: set<string>, s: Search, t: Search, node: string, low: int, n: int,
                 pending: set<string>, target: string)
    requires Looping(g, open, s, t, node, low, pending) && Edge(g, node, target) && target in t.idx
    requires n == if target in t.stack then Min(low, t.idx[target]) else low
    ensures Looping(g, open, s, t, node, n, pending - {target})
  {
    if n != low {
      var y :| 0 <= y < |t.stack| && t.stack[y] == target;
      ReachEdge(g, node, target);
    }
  }

  /** After the loop, a smaller `low` leaves the node on the stack. */
  lemma LeaveOnStack(g: Graph, open: set<string>, s: Search, t: Search, node: string, low: int)
    requires Looping(g, open, s, t, node, low, {}) && low != t.idx[node]
    ensures Inv(g, open, t) && Returned(g, s, t, node, low)
  {
    var base := |s.stack|;
    var y :| 0 <= y < |t.stack| && t.stack[y] in t.idx && t.idx[t.stack[y]] == low && Reach(g, node, t.stack[y]);
    assert y > base ==> Below(t, base, y);
    assert t.stack[..base] == s.stack;
    StayKeeps(g, open, t, base, y);
  }

  /** After the loop, an unchanged `low` closes the component above the node. */
  lemma LeaveClosed(g: Graph, open: set<string>, s: Search, t: Search, node: string, low: int)
    requires Looping(g, open, s, t, node, low, {}) && low == t.idx[node]
    ensures Ready(g, open, t, |s.stack|)
    ensures Inv(g, open, Pop(t, |s.stack|)) && Returned(g, s, Pop(t, |s.stack|), node, low)
  {
    var base := |s.stack|;
    assert t.stack[..base] == s.stack;
    forall i, j | base <= i < |t.stack| && 0 <= j < base ensures !Edge(g, t.stack[i], t.stack[j]) {
      assert Below(t, j, base);
    }
    PopKeeps(g, open, t, base);
    StackDistinct(g, t);
    forall i | 0 <= i < base ensures s.stack[i] != node { assert s.stack[i] == t.stack[i]; }
  }

  /** With no open call the stack is empty, so everything numbered is closed. */
  lemma QuietIsEmpty(g: Graph, s: Search)
    requires Inv(g, {}, s)
    ensures s.stack == []
  {
    assert s.stack != [] ==> Anchored(g, {}, s.stack, 0);
  }
}
