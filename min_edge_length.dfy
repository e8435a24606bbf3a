/**
 * `approximate_minimal_edge_length_for_graph` (wknml/nml_utils_2.py:52-68): every node that has
 * exactly two edges when the pass starts is visited once, in node order; if the bend at it is
 * small enough and its two neighbours are close enough, it is cut out and its neighbours are
 * joined directly. The length of a vector and the angle between two vectors are parameters.
 */
module MinEdgeLength {
  import opened Graphs

  /** Why the pass stopped. A Python exception leaves the graph as far as the pass had got. */
  datatype Outcome =
    | Finished
      /** `neighbors[0]` or `neighbors[1]` of a node with fewer than two neighbours */
    | IndexError(node: int)
      /** `graph.nodes[n]` of a node that is gone, or `["position"]` of a node without attributes */
    | KeyError(node: int)

  /** What one visit does: go on with a graph, or stop. */
  datatype Step = Next(v: GraphValue) | Stop(o: Outcome)

  /** `[node for node in graph.nodes if graph.degree(node) == 2]`: the candidates, in node order. */
  function DegreeTwoNodes(ns: seq<int>, es: seq<Edge>): (r: seq<int>)
    ensures forall x :: x in r <==> x in ns && Degree(es, x) == 2
  {
    if ns == [] then []
    else
      var r := (if Degree(es, ns[0]) == 2 then [ns[0]] else []) + DegreeTwoNodes(ns[1..], es);
      assert forall x :: x in ns <==> x == ns[0] || x in ns[1..] by {
        assert ns == [ns[0]] + ns[1..];
      }
      r
  }

  /**
   * The test at wknml/nml_utils_2.py:60-65, for a node at `pc` between neighbours at `p0` and `p1`:
   * the angle between the incoming and the outgoing vector, and the distance between the two
   * neighbours, are both within their bounds, the bounds included.
   */
  predicate Accepts(pc: Vec, p0: Vec, p1: Vec, maxLength: int, maxAngle: real,
                    length: Vec -> real, angle: (Vec, Vec) -> real)
  {
    angle(Between(p0, pc), Between(pc, p1)) <= maxAngle && length(Between(p0, p1)) <= maxLength as real
  }

  /**
   * Lines 66-68: drop the two edges at `c`, drop `c`, join its neighbours (a no-op when they are
   * joined already).
   */
  function Contract(v: GraphValue, c: int, n0: int, n1: int): GraphValue
  {
    WithEdge(WithoutNode(v.(edges := WithoutAll(v.edges, [(n0, c), (c, n1)])), c), n0, n1)
  }

  /**
   * One candidate (lines 56-68). Its neighbours are the first two in adjacency order; the
   * lookups fail in the order the source makes them.
   */
  function Visit(v: GraphValue, c: int, maxLength: int, maxAngle: real,
                 length: Vec -> real, angle: (Vec, Vec) -> real): Step
  {
    if c !in v.nodes then Stop(KeyError(c))
    else
      var ns := Neighbors(v.edges, c);
      if |ns| < 2 then Stop(IndexError(c))
      else if c !in v.data then Stop(KeyError(c))
      else if ns[0] !in v.data then Stop(KeyError(ns[0]))
      else if ns[1] !in v.data then Stop(KeyError(ns[1]))
      else if Accepts(v.data[c].position, v.data[ns[0]].position, v.data[ns[1]].position,
                      maxLength, maxAngle, length, angle)
      then Next(Contract(v, c, ns[0], ns[1]))
      else Next(v)
  }

  /** The whole pass over the candidates `cs`: the graph at the end, and how the pass ended. */
  function Run(v: GraphValue, cs: seq<int>, maxLength: int, maxAngle: real,
               length: Vec -> real, angle: (Vec, Vec) -> real): (GraphValue, Outcome)
    decreases |cs|
  {
    if cs == [] then (v, Finished)
    else
      match Visit(v, cs[0], maxLength, maxAngle, length, angle)
      case Stop(o) => (v, o)
      case Next(w) => Run(w, cs[1..], maxLength, maxAngle, length, angle)
  }

  /**
   * `approximate_minimal_edge_length_for_graph`: the graph ends as the pass over the degree-2
   * snapshot leaves it, and the result says whether the pass got through.
   */
  method ApproximateMinimalEdgeLengthForGraph(g: Graph, maxLength: int, maxAngle: real,
                                              length: Vec -> real, angle: (Vec, Vec) -> real)
    returns (outcome: Outcome)
    modifies g
    ensures (g.Value(), outcome) ==
            Run(old(g.Value()), DegreeTwoNodes(old(g.nodes), old(g.edges)), maxLength, maxAngle, length, angle)
  {
    var candidates := DegreeTwoNodes(g.nodes, g.edges);
    ghost var goal := Run(g.Value(), candidates, maxLength, maxAngle, length, angle);
    for i := 0 to |candidates|
      invariant Run(g.Value(), candidates[i..], maxLength, maxAngle, length, angle) == goal
    {
      var c := candidates[i];
      assert candidates[i..][1..] == candidates[i + 1..];
      if c !in g.nodes {
        return KeyError(c);
      }
      var neighbors := Neighbors(g.edges, c);
      if |neighbors| < 2 {
        return IndexError(c);
      }
      if c !in g.data {
        return KeyError(c);
      }
      if neighbors[0] !in g.data {
        return KeyError(neighbors[0]);
      }
      if neighbors[1] !in g.data {
        return KeyError(neighbors[1]);
      }
      var current, first, second := g.data[c].position, g.data[neighbors[0]].position, g.data[neighbors[1]].position;
      if Accepts(current, first, second, maxLength, maxAngle, length, angle) {
        g.RemoveEdgesFrom([(neighbors[0], c), (c, neighbors[1])]);
        g.RemoveNode(c);
        g.AddEdge(neighbors[0], neighbors[1]);
      }
    }
    outcome := Finished;
  }

  // ---------------------------------------------------------------------------------------------
  // What one contraction does

  lemma {:induction false} DropAbsent(ns: seq<int>, n: int)
    requires n !in ns
    ensures Drop(ns, n) == ns
  {
    if ns != [] {
      DropAbsent(ns[1..], n);
      assert ns == [ns[0]] + ns[1..];
    }
  }

  /** Dropping a listed id from distinct ids shortens them by one. */
  lemma {:induction false} DropCount(ns: seq<int>, n: int)
    requires Unique(ns) && n in ns
    ensures |Drop(ns, n)| == |ns| - 1
  {
    if ns[0] == n {
      DropAbsent(ns[1..], n);
    } else {
      assert ns == [ns[0]] + ns[1..];
      DropCount(ns[1..], n);
    }
  }

  /** Removing entries that touch `c` before detaching `c` changes nothing. */
  lemma {:induction false} DetachWithout(es: seq<Edge>, u: int, w: int, c: int)
    requires u == c || w == c
    ensures Detach(Without(es, u, w), c) == Detach(es, c)
  {
    if es != [] {
      DetachWithout(es[1..], u, w, c);
      var t := Without(es[1..], u, w);
      if Joins(es[0], u, w) {
        assert Without(es, u, w) == t;
        assert Detach(es, c) == Detach(es[1..], c);
      } else {
        assert Without(es, u, w) == [es[0]] + t;
        assert ([es[0]] + t)[0] == es[0] && ([es[0]] + t)[1..] == t;
      }
    }
  }

  /**
   * The edges after a contraction: those that did not touch `c`, in their order, then the edge
   * between the neighbours unless they were joined already.
   */
  lemma ContractEdges(v: GraphValue, c: int, n0: int, n1: int)
    ensures Contract(v, c, n0, n1).edges ==
            if HasEdge(Detach(v.edges, c), n0, n1) then Detach(v.edges, c) else Detach(v.edges, c) + [(n0, n1)]
  {
    var es, rs := v.edges, [(n0, c), (c, n1)];
    var once := Without(es, n0, c);
    assert WithoutAll(es, rs) == WithoutAll(once, [(c, n1)]) by {
      assert rs[1..] == [(c, n1)];
    }
    assert WithoutAll(once, [(c, n1)]) == WithoutAll(Without(once, c, n1), []) by {
      assert [(c, n1)][1..] == [];
    }
    DetachWithout(Without(es, n0, c), c, n1, c);
    DetachWithout(es, n0, c, c);
  }

  /**
   * Cutting out a node `c` removes `c`, its attributes and its edges, joins its two neighbours,
   * and touches nothing else (wknml/nml_utils_2.py:66-68).
   */
  lemma ContractShape(v: GraphValue, c: int, n0: int, n1: int)
    requires n0 != c && n1 != c
    ensures forall x :: x in Contract(v, c, n0, n1).nodes <==> (x in v.nodes && x != c) || x == n0 || x == n1
    ensures Contract(v, c, n0, n1).data == v.data - {c}
    ensures forall x, y :: HasEdge(Contract(v, c, n0, n1).edges, x, y) <==>
              (HasEdge(v.edges, x, y) && x != c && y != c) || Joins((x, y), n0, n1)
  {
    ContractEdges(v, c, n0, n1);
  }

  /**
   * Between two neighbours in a valid graph, the cut keeps the graph valid and the node count
   * drops by exactly one (wknml/nml_utils_2.py:66-68).
   */
  lemma ContractCount(v: GraphValue, c: int, n0: int, n1: int)
    requires ValidGraph(v) && c in v.nodes && n0 != c && n1 != c
    requires HasEdge(v.edges, n0, c) && HasEdge(v.edges, c, n1)
    ensures |Contract(v, c, n0, n1).nodes| == |v.nodes| - 1
    ensures ValidGraph(Contract(v, c, n0, n1))
  {
    var cut := v.(edges := WithoutAll(v.edges, [(n0, c), (c, n1)]));
    ValidWithoutAll(v, [(n0, c), (c, n1)]);
    var w := WithoutNode(cut, c);
    ValidWithoutNode(cut, c);
    ValidWithEdge(w, n0, n1);
    assert n0 in v.nodes && n1 in v.nodes;
    DropCount(v.nodes, c);
    assert n0 in w.nodes && n1 in w.nodes;
  }

  /** The entries joining `x` and `y`. */
  function Links(es: seq<Edge>, x: int, y: int): nat
  {
    if es == [] then 0 else (if Joins(es[0], x, y) then 1 else 0) + Links(es[1..], x, y)
  }

  /** Without repeated edges, two nodes are joined by one entry or by none. */
  lemma {:induction false} LinksUnique(es: seq<Edge>, x: int, y: int)
    requires UniqueEdges(es)
    ensures Links(es, x, y) == if HasEdge(es, x, y) then 1 else 0
  {
    if es != [] {
      LinksUnique(es[1..], x, y);
      assert es == [es[0]] + es[1..];
    }
  }

  lemma {:induction false} DegreeAppend(a: seq<Edge>, b: seq<Edge>, x: int)
    ensures Degree(a + b, x) == Degree(a, x) + Degree(b, x)
  {
    if a != [] {
      assert (a + b)[1..] == a[1..] + b;
      DegreeAppend(a[1..], b, x);
    } else {
      assert a + b == b;
    }
  }

  /** Detaching `c` takes from every other node one degree per entry joining it to `c`. */
  lemma {:induction false} DegreeDetach(es: seq<Edge>, c: int, x: int)
    requires x != c
    ensures Degree(Detach(es, c), x) == Degree(es, x) - Links(es, x, c)
  {
    if es != [] {
      DegreeDetach(es[1..], c, x);
      var head := if es[0].0 == c || es[0].1 == c then [] else [es[0]];
      assert Detach(es, c) == head + Detach(es[1..], c);
      DegreeAppend(head, Detach(es[1..], c), x);
    }
  }

  /**
   * When the two neighbours of `c` were not joined before, cutting `c` out leaves every remaining
   * node with the degree it had: the neighbours each lose the edge to `c` and gain the new one.
   */
  lemma ContractKeepsDegrees(v: GraphValue, c: int, n0: int, n1: int, x: int)
    requires UniqueEdges(v.edges) && Neighbors(v.edges, c) == [n0, n1] && n0 != c && n1 != c && n0 != n1
    requires !HasEdge(v.edges, n0, n1) && x != c
    ensures Degree(Contract(v, c, n0, n1).edges, x) == Degree(v.edges, x)
  {
    var es := v.edges;
    var d := Detach(es, c);
    ContractEdges(v, c, n0, n1);
    assert !HasEdge(d, n0, n1);
    assert Contract(v, c, n0, n1).edges == d + [(n0, n1)];
    DegreeAppend(d, [(n0, n1)], x);
    assert Degree([(n0, n1)], x) == (if x == n0 then 1 else 0) + (if x == n1 then 1 else 0) by {
      assert [(n0, n1)][1..] == [];
    }
    DegreeDetach(es, c, x);
    LinksUnique(es, x, c);
    assert HasEdge(es, x, c) <==> x == n0 || x == n1 by {
      assert x in Neighbors(es, c) <==> x == n0 || x == n1;
    }
  }

  // ---------------------------------------------------------------------------------------------
  // What the whole pass does

  /**
   * One visit keeps the graph valid, adds no node, removes no node but the candidate, and leaves
   * the attributes of every node that stays as they were.
   */
  lemma VisitShrinks(v: GraphValue, c: int, maxLength: int, maxAngle: real,
                     length: Vec -> real, angle: (Vec, Vec) -> real)
    requires ValidGraph(v)
    ensures Visit(v, c, maxLength, maxAngle, length, angle).Next? ==>
              var w := Visit(v, c, maxLength, maxAngle, length, angle).v;
              && ValidGraph(w)
              && (forall x :: x in w.nodes ==> x in v.nodes)
              && (forall x :: x in v.nodes && x != c ==> x in w.nodes)
              && (forall x :: x in w.data ==> x in v.data && w.data[x] == v.data[x])
  {
    var s := Visit(v, c, maxLength, maxAngle, length, angle);
    if s.Next? && s.v != v {
      var ns := Neighbors(v.edges, c);
      var cut := v.(edges := WithoutAll(v.edges, [(ns[0], c), (c, ns[1])]));
      ValidWithoutAll(v, [(ns[0], c), (c, ns[1])]);
      ValidWithoutNode(cut, c);
      ValidWithEdge(WithoutNode(cut, c), ns[0], ns[1]);
      assert ns[0] in ns && ns[1] in ns;
      assert ns[0] in v.nodes && ns[1] in v.nodes;
    }
  }

  /**
   * A visit that goes on either leaves the graph exactly as it was, or has passed the test at
   * line 65 and cut the candidate out, one node fewer (wknml/nml_utils_2.py:65-68).
   */
  lemma VisitCutsOrKeeps(v: GraphValue, c: int, maxLength: int, maxAngle: real,
                         length: Vec -> real, angle: (Vec, Vec) -> real)
    requires ValidGraph(v) && (c, c) !in v.edges
    ensures Visit(v, c, maxLength, maxAngle, length, angle).Next? ==>
              Visit(v, c, maxLength, maxAngle, length, angle).v == v ||
              (c !in Visit(v, c, maxLength, maxAngle, length, angle).v.nodes &&
               |Visit(v, c, maxLength, maxAngle, length, angle).v.nodes| == |v.nodes| - 1)
    ensures Visit(v, c, maxLength, maxAngle, length, angle).Next? &&
            Visit(v, c, maxLength, maxAngle, length, angle).v != v ==>
              var ns := Neighbors(v.edges, c);
              |ns| >= 2 && c in v.data && ns[0] in v.data && ns[1] in v.data &&
              Accepts(v.data[c].position, v.data[ns[0]].position, v.data[ns[1]].position,
                      maxLength, maxAngle, length, angle)
  {
    var s := Visit(v, c, maxLength, maxAngle, length, angle);
    if s.Next? && s.v != v {
      var ns := Neighbors(v.edges, c);
      assert ns[0] in ns && ns[1] in ns;
      ContractShape(v, c, ns[0], ns[1]);
      ContractCount(v, c, ns[0], ns[1]);
    }
  }

  /**
   * The pass keeps the graph valid, never adds a node, removes only candidates, and never changes
   * the attributes (in particular the position) of a node that stays.
   */
  lemma {:induction false} RunShrinks(v: GraphValue, cs: seq<int>, maxLength: int, maxAngle: real,
                                      length: Vec -> real, angle: (Vec, Vec) -> real)
    requires ValidGraph(v)
    ensures ValidGraph(Run(v, cs, maxLength, maxAngle, length, angle).0)
    ensures forall x :: x in Run(v, cs, maxLength, maxAngle, length, angle).0.nodes ==> x in v.nodes
    ensures forall x :: x in v.nodes && x !in cs ==> x in Run(v, cs, maxLength, maxAngle, length, angle).0.nodes
    ensures forall x :: x in Run(v, cs, maxLength, maxAngle, length, angle).0.data ==>
              x in v.data && Run(v, cs, maxLength, maxAngle, length, angle).0.data[x] == v.data[x]
    decreases |cs|
  {
    if cs != [] {
      var s := Visit(v, cs[0], maxLength, maxAngle, length, angle);
      if s.Next? {
        assert Run(v, cs, maxLength, maxAngle, length, angle) == Run(s.v, cs[1..], maxLength, maxAngle, length, angle);
        VisitShrinks(v, cs[0], maxLength, maxAngle, length, angle);
        RunShrinks(s.v, cs[1..], maxLength, maxAngle, length, angle);
        assert forall x :: x in cs <==> x == cs[0] || x in cs[1..] by {
          assert cs == [cs[0]] + cs[1..];
        }
      }
    }
  }

  /** Without a self-loop at `x`, its degree is the length of its neighbour list. */
  lemma {:induction false} DegreeNeighbors(es: seq<Edge>, x: int)
    requires (x, x) !in es
    ensures Degree(es, x) == |Neighbors(es, x)|
  {
    if es != [] {
      assert es == [es[0]] + es[1..];
      DegreeNeighbors(es[1..], x);
    }
  }

  /**
   * The snapshot goes stale on a cycle: when the neighbours of a degree-2 candidate `c` are joined
   * already (a triangle), cutting `c` out adds no edge, so its first neighbour, if it had degree 2,
   * is left with one neighbour and visiting it fails at `neighbors[1]`
   * (wknml/nml_utils_2.py:57-59, 66-68).
   */
  lemma StaleCandidateFails(v: GraphValue, c: int, n0: int, n1: int, maxLength: int, maxAngle: real,
                            length: Vec -> real, angle: (Vec, Vec) -> real)
    requires ValidGraph(v) && c in v.nodes && Neighbors(v.edges, c) == [n0, n1] && n0 != c && n1 != c
    requires HasEdge(v.edges, n0, n1) && Degree(v.edges, n0) == 2 && (n0, n0) !in v.edges
    ensures Visit(Contract(v, c, n0, n1), n0, maxLength, maxAngle, length, angle) == Stop(IndexError(n0))
  {
    var d := Detach(v.edges, c);
    assert n0 in Neighbors(v.edges, c) && n1 in Neighbors(v.edges, c);
    ContractEdges(v, c, n0, n1);
    ContractShape(v, c, n0, n1);
    assert HasEdge(d, n0, n1);
    assert Contract(v, c, n0, n1).edges == d;
    DegreeDetach(v.edges, c, n0);
    LinksUnique(v.edges, n0, c);
    DegreeNeighbors(d, n0);
  }
}
