/**
 * The undirected skeleton graph the utilities operate on (a networkx `Graph` with one attribute
 * dictionary per node). Node ids keep their insertion order; edges keep theirs, and edge
 * iteration follows that order. Positions are exact real coordinates.
 */
module Graphs {

  /** A point or a difference of two points. */
  datatype Vec = Vec(x: real, y: real, z: real)

  /** `get_vector_between_nodes`: the vector from `a` to `b`. */
  function Between(a: Vec, b: Vec): (r: Vec)
    ensures Add(a, r) == b
  {
    Vec(b.x - a.x, b.y - a.y, b.z - a.z)
  }

  function Add(a: Vec, b: Vec): Vec
  {
    Vec(a.x + b.x, a.y + b.y, a.z + b.z)
  }

  function Scale(v: Vec, t: real): Vec
  {
    Vec(v.x * t, v.y * t, v.z * t)
  }

  /** The attribute dictionary of a node: its `id`, its `position` and every other attribute. */
  datatype NodeData = NodeData(id: int, position: Vec, rest: map<string, string>)

  type Edge = (int, int)

  /** The entry `e` stands for the undirected edge {u, v}. */
  predicate Joins(e: Edge, u: int, v: int)
  {
    e == (u, v) || e == (v, u)
  }

  /** `graph.has_edge(u, v)` */
  predicate HasEdge(es: seq<Edge>, u: int, v: int)
  {
    (u, v) in es || (v, u) in es
  }

  /** No id is listed twice. */
  predicate Unique(ns: seq<int>)
  {
    ns == [] || (ns[0] !in ns[1..] && Unique(ns[1..]))
  }

  /** No undirected edge is listed twice, in either orientation. */
  predicate UniqueEdges(es: seq<Edge>)
  {
    es == [] || (!HasEdge(es[1..], es[0].0, es[0].1) && UniqueEdges(es[1..]))
  }

  /** The ids, attributes and edges of one graph. */
  datatype GraphValue = GraphValue(nodes: seq<int>, data: map<int, NodeData>, edges: seq<Edge>)

  /** What networkx keeps true of every graph: distinct nodes, attributes and edges only for them. */
  predicate ValidGraph(g: GraphValue)
  {
    && Unique(g.nodes)
    && (forall n :: n in g.data ==> n in g.nodes)
    && (forall e :: e in g.edges ==> e.0 in g.nodes && e.1 in g.nodes)
    && UniqueEdges(g.edges)
  }

  // ---------------------------------------------------------------------------------------------
  // The networkx operations the utilities call, on values

  /** Adding a node id that may already be present. */
  function AddNodeId(ns: seq<int>, n: int): (r: seq<int>)
    ensures forall x :: x in r <==> x in ns || x == n
  {
    if n in ns then ns else ns + [n]
  }

  /** `graph.add_edge(u, v)`: missing endpoints become bare nodes; an existing edge stays as it is. */
  function WithEdge(g: GraphValue, u: int, v: int): (r: GraphValue)
    ensures r.data == g.data
    ensures forall x :: x in r.nodes <==> x in g.nodes || x == u || x == v
    ensures HasEdge(r.edges, u, v)
    ensures forall e :: e in r.edges <==> e in g.edges || (e == (u, v) && !HasEdge(g.edges, u, v))
  {
    GraphValue(AddNodeId(AddNodeId(g.nodes, u), v), g.data,
      if HasEdge(g.edges, u, v) then g.edges else g.edges + [(u, v)])
  }

  /** The ids an edge list mentions. */
  function Ends(es: seq<Edge>): (r: set<int>)
    ensures forall e :: e in es ==> e.0 in r && e.1 in r
  {
    if es == [] then {} else {es[0].0, es[0].1} + Ends(es[1..])
  }

  /** Every id an edge list mentions is an end of one of its entries. */
  lemma {:induction false} EndsWitness(es: seq<Edge>, x: int) returns (i: nat)
    requires x in Ends(es)
    ensures i < |es| && (es[i].0 == x || es[i].1 == x)
  {
    i := 0;
    if es[0].0 != x && es[0].1 != x {
      var j := EndsWitness(es[1..], x);
      i := j + 1;
    }
  }

  lemma {:induction false} EndsAppend(a: seq<Edge>, b: seq<Edge>)
    ensures Ends(a + b) == Ends(a) + Ends(b)
  {
    if a != [] {
      assert (a + b)[1..] == a[1..] + b;
      EndsAppend(a[1..], b);
    } else {
      assert a + b == b;
    }
  }

  /**
   * `graph.add_edges_from(es)`: the nodes gain every endpoint, every listed edge is present
   * afterwards, and no entry is dropped or invented.
   */
  function WithEdges(g: GraphValue, es: seq<Edge>): (r: GraphValue)
    ensures r.data == g.data
    ensures forall x :: x in r.nodes <==> x in g.nodes || x in Ends(es)
    ensures forall e :: e in g.edges ==> e in r.edges
    ensures forall e :: e in es ==> HasEdge(r.edges, e.0, e.1)
    ensures forall e :: e in r.edges ==> e in g.edges || e in es
    decreases |es|
  {
    if es == [] then g
    else
      var g1 := WithEdge(g, es[0].0, es[0].1);
      var r := WithEdges(g1, es[1..]);
      assert forall e :: e in es ==> HasEdge(r.edges, e.0, e.1) by {
        forall e | e in es
          ensures HasEdge(r.edges, e.0, e.1)
        {
          if e != es[0] {
            assert e in es[1..];
          }
        }
      }
      assert forall e :: e in r.edges ==> e in g.edges || e in es by {
        forall e | e in r.edges && e !in es[1..]
          ensures e in g.edges || e in es
        {
          assert e in g1.edges;
        }
      }
      r
  }

  /** The edge entries that do not stand for {u, v}. */
  function Without(es: seq<Edge>, u: int, v: int): (r: seq<Edge>)
    ensures forall e :: e in r <==> e in es && !Joins(e, u, v)
  {
    if es == [] then [] else (if Joins(es[0], u, v) then [] else [es[0]]) + Without(es[1..], u, v)
  }

  /** `graph.remove_edges_from(rs)`: every listed edge goes, in either orientation; absent ones are ignored. */
  function WithoutAll(es: seq<Edge>, rs: seq<Edge>): (r: seq<Edge>)
    ensures forall e :: e in r <==> e in es && !HasEdge(rs, e.0, e.1)
    decreases |rs|
  {
    if rs == [] then es
    else
      var r := WithoutAll(Without(es, rs[0].0, rs[0].1), rs[1..]);
      assert forall e: Edge :: HasEdge(rs, e.0, e.1) <==> Joins(e, rs[0].0, rs[0].1) || HasEdge(rs[1..], e.0, e.1) by {
        assert rs == [rs[0]] + rs[1..];
      }
      r
  }

  /** `graph.add_node(n, **d)` for a node that is new or bare: its attributes become `d`. */
  function WithNode(g: GraphValue, n: int, d: NodeData): (r: GraphValue)
    ensures forall x :: x in r.nodes <==> x in g.nodes || x == n
    ensures r.edges == g.edges
  {
    GraphValue(AddNodeId(g.nodes, n), g.data[n := d], g.edges)
  }

  /** The ids other than `n`, in order. */
  function Drop(ns: seq<int>, n: int): (r: seq<int>)
    ensures forall x :: x in r <==> x in ns && x != n
  {
    if ns == [] then [] else (if ns[0] == n then [] else [ns[0]]) + Drop(ns[1..], n)
  }

  /** The edge entries that do not touch `n`. */
  function Detach(es: seq<Edge>, n: int): (r: seq<Edge>)
    ensures forall e :: e in r <==> e in es && e.0 != n && e.1 != n
  {
    if es == [] then [] else (if es[0].0 == n || es[0].1 == n then [] else [es[0]]) + Detach(es[1..], n)
  }

  /** `graph.remove_node(n)`: the node, its attributes and every edge touching it go. */
  function WithoutNode(g: GraphValue, n: int): (r: GraphValue)
    ensures forall x :: x in r.nodes <==> x in g.nodes && x != n
    ensures forall e :: e in r.edges <==> e in g.edges && e.0 != n && e.1 != n
  {
    GraphValue(Drop(g.nodes, n), g.data - {n}, Detach(g.edges, n))
  }

  /** The other end of an edge entry seen from `n`. */
  function Other(e: Edge, n: int): int
  {
    if e.0 == n then e.1 else e.0
  }

  /** `list(graph.neighbors(n))`: the other end of every edge touching `n`, in edge order. */
  function Neighbors(es: seq<Edge>, n: int): (r: seq<int>)
    ensures forall x :: x in r <==> (n, x) in es || (x, n) in es
  {
    if es == [] then []
    else
      var r := (if es[0].0 == n || es[0].1 == n then [Other(es[0], n)] else []) + Neighbors(es[1..], n);
      assert forall x :: (n, x) in es || (x, n) in es <==>
        Joins(es[0], n, x) || (n, x) in es[1..] || (x, n) in es[1..] by {
        assert es == [es[0]] + es[1..];
      }
      r
  }

  /** `graph.degree(n)`: the edges touching `n`, a self-loop counting twice. */
  function Degree(es: seq<Edge>, n: int): nat
  {
    if es == [] then 0
    else (if es[0].0 == n then 1 else 0) + (if es[0].1 == n then 1 else 0) + Degree(es[1..], n)
  }

  /** The edges at `n`, seen from `n`, in adjacency order, except those to the nodes in `seen`. */
  function Incident(es: seq<Edge>, n: int, seen: seq<int>): (r: seq<Edge>)
    ensures forall e :: e in r ==> e.0 == n && HasEdge(es, n, e.1) && e.1 !in seen
    ensures forall x :: HasEdge(es, n, x) && x !in seen ==> (n, x) in r
  {
    if es == [] then []
    else
      var r := (if (es[0].0 == n || es[0].1 == n) && Other(es[0], n) !in seen then [(n, Other(es[0], n))] else [])
        + Incident(es[1..], n, seen);
      assert forall x :: HasEdge(es, n, x) <==> Joins(es[0], n, x) || HasEdge(es[1..], n, x) by {
        assert es == [es[0]] + es[1..];
      }
      r
  }

  /**
   * `graph.edges`: every node in turn, with its edges to the nodes not visited before it, so each
   * undirected edge is reported once, from the endpoint that comes first in node order.
   */
  function EdgeView(ns: seq<int>, es: seq<Edge>): (r: seq<Edge>)
    ensures forall e :: e in r ==> e.0 in ns && HasEdge(es, e.0, e.1)
    ensures forall e :: e in es && (e.0 in ns || e.1 in ns) ==> e in r || (e.1, e.0) in r
  {
    if ns == [] then []
    else
      var init, n := ns[..|ns| - 1], ns[|ns| - 1];
      var before, at := EdgeView(init, es), Incident(es, n, init);
      EdgeViewStep(ns, es, init, n, before, at);
      before + at
  }

  /** One more node in the edge view: its edges to the nodes before it are reported from it. */
  lemma EdgeViewStep(ns: seq<int>, es: seq<Edge>, init: seq<int>, n: int, before: seq<Edge>, at: seq<Edge>)
    requires ns == init + [n] && at == Incident(es, n, init)
    requires forall e :: e in before ==> e.0 in init && HasEdge(es, e.0, e.1)
    requires forall e :: e in es && (e.0 in init || e.1 in init) ==> e in before || (e.1, e.0) in before
    ensures forall e :: e in before + at ==> e.0 in ns && HasEdge(es, e.0, e.1)
    ensures forall e :: e in es && (e.0 in ns || e.1 in ns) ==> e in before + at || (e.1, e.0) in before + at
  {
    var r := before + at;
    forall e | e in r
      ensures e.0 in ns && HasEdge(es, e.0, e.1)
    {
      if e !in before {
        assert e in at;
      }
    }
    forall e | e in es && (e.0 in ns || e.1 in ns)
      ensures e in r || (e.1, e.0) in r
    {
      if e.0 in init || e.1 in init {
        assert e in before || (e.1, e.0) in before;
      } else if e.0 == n {
        assert HasEdge(es, n, e.1);
      } else {
        assert HasEdge(es, n, e.0);
      }
    }
  }

  /** No two entries of `r` stand for the same undirected edge. */
  ghost predicate ReportedOnce(r: seq<Edge>)
  {
    forall a, b :: 0 <= a < b < |r| ==> !Joins(r[a], r[b].0, r[b].1)
  }

  /** Without its last id, a list of distinct ids stays distinct and does not hold that id. */
  lemma {:induction false} UniqueInit(ns: seq<int>)
    requires ns != [] && Unique(ns)
    ensures Unique(ns[..|ns| - 1]) && ns[|ns| - 1] !in ns[..|ns| - 1]
  {
    if |ns| > 1 {
      UniqueInit(ns[1..]);
      assert ns[..|ns| - 1] == [ns[0]] + ns[1..][..|ns| - 2];
      assert ns[..|ns| - 1][1..] == ns[1..][..|ns| - 2];
      assert ns[|ns| - 1] in ns[1..];
    }
  }

  /** Over edges listed once, the edges at `n` are reported once each. */
  lemma {:induction false} IncidentOnce(es: seq<Edge>, n: int, seen: seq<int>)
    requires UniqueEdges(es)
    ensures ReportedOnce(Incident(es, n, seen))
  {
    if es != [] {
      var rest := Incident(es[1..], n, seen);
      IncidentOnce(es[1..], n, seen);
      var r := Incident(es, n, seen);
      if (es[0].0 == n || es[0].1 == n) && Other(es[0], n) !in seen {
        var o := Other(es[0], n);
        assert r == [(n, o)] + rest;
        forall a, b | 0 <= a < b < |r|
          ensures !Joins(r[a], r[b].0, r[b].1)
        {
          assert r[b] == rest[b - 1] && r[b] in rest;
          if a > 0 {
            assert r[a] == rest[a - 1];
          }
        }
      }
    }
  }

  /**
   * Over distinct nodes and edges listed once, `graph.edges` reports every undirected edge once:
   * a node's entries lead to nodes after it, and no earlier node reports an edge to it twice.
   */
  lemma {:induction false} EdgeViewOnce(ns: seq<int>, es: seq<Edge>)
    requires Unique(ns) && UniqueEdges(es)
    ensures ReportedOnce(EdgeView(ns, es))
  {
    if ns != [] {
      var init, n := ns[..|ns| - 1], ns[|ns| - 1];
      var before, at := EdgeView(init, es), Incident(es, n, init);
      UniqueInit(ns);
      EdgeViewOnce(init, es);
      IncidentOnce(es, n, init);
      var r := EdgeView(ns, es);
      assert r == before + at;
      forall a, b | 0 <= a < b < |r|
        ensures !Joins(r[a], r[b].0, r[b].1)
      {
        if b < |before| {
          assert r[a] == before[a] && r[b] == before[b];
        } else if a >= |before| {
          assert r[a] == at[a - |before|] && r[b] == at[b - |before|];
        } else {
          assert r[a] == before[a] && r[a] in before;
          assert r[b] == at[b - |before|] && r[b] in at;
        }
      }
    }
  }

  // ---------------------------------------------------------------------------------------------
  // Each operation keeps a graph valid

  lemma {:induction false} UniqueSnoc(ns: seq<int>, n: int)
    requires Unique(ns) && n !in ns
    ensures Unique(ns + [n])
  {
    if ns != [] {
      assert (ns + [n])[1..] == ns[1..] + [n];
      UniqueSnoc(ns[1..], n);
    }
  }

  lemma {:induction false} UniqueEdgesSnoc(es: seq<Edge>, u: int, v: int)
    requires UniqueEdges(es) && !HasEdge(es, u, v)
    ensures UniqueEdges(es + [(u, v)])
  {
    if es != [] {
      assert (es + [(u, v)])[1..] == es[1..] + [(u, v)];
      assert es[0] in es;
      UniqueEdgesSnoc(es[1..], u, v);
    }
  }

  lemma {:induction false} UniqueDrop(ns: seq<int>, n: int)
    requires Unique(ns)
    ensures Unique(Drop(ns, n))
  {
    if ns != [] {
      UniqueDrop(ns[1..], n);
      if ns[0] != n {
        assert Drop(ns, n) == [ns[0]] + Drop(ns[1..], n);
        assert Drop(ns, n)[1..] == Drop(ns[1..], n);
      } else {
        assert Drop(ns, n) == Drop(ns[1..], n);
      }
    }
  }

  lemma {:induction false} UniqueEdgesWithout(es: seq<Edge>, u: int, v: int)
    requires UniqueEdges(es)
    ensures UniqueEdges(Without(es, u, v))
  {
    if es != [] {
      UniqueEdgesWithout(es[1..], u, v);
      if !Joins(es[0], u, v) {
        assert Without(es, u, v) == [es[0]] + Without(es[1..], u, v);
        assert Without(es, u, v)[1..] == Without(es[1..], u, v);
      } else {
        assert Without(es, u, v) == Without(es[1..], u, v);
      }
    }
  }

  lemma {:induction false} UniqueEdgesWithoutAll(es: seq<Edge>, rs: seq<Edge>)
    requires UniqueEdges(es)
    ensures UniqueEdges(WithoutAll(es, rs))
    decreases |rs|
  {
    if rs != [] {
      UniqueEdgesWithout(es, rs[0].0, rs[0].1);
      UniqueEdgesWithoutAll(Without(es, rs[0].0, rs[0].1), rs[1..]);
    }
  }

  lemma {:induction false} UniqueEdgesDetach(es: seq<Edge>, n: int)
    requires UniqueEdges(es)
    ensures UniqueEdges(Detach(es, n))
  {
    if es != [] {
      UniqueEdgesDetach(es[1..], n);
      if es[0].0 != n && es[0].1 != n {
        assert Detach(es, n) == [es[0]] + Detach(es[1..], n);
        assert Detach(es, n)[1..] == Detach(es[1..], n);
      } else {
        assert Detach(es, n) == Detach(es[1..], n);
      }
    }
  }

  lemma AddNodeIdUnique(ns: seq<int>, n: int)
    requires Unique(ns)
    ensures Unique(AddNodeId(ns, n))
  {
    if n !in ns {
      UniqueSnoc(ns, n);
    }
  }

  /** `add_edge` keeps a graph valid. */
  lemma ValidWithEdge(g: GraphValue, u: int, v: int)
    requires ValidGraph(g)
    ensures ValidGraph(WithEdge(g, u, v))
  {
    AddNodeIdUnique(g.nodes, u);
    AddNodeIdUnique(AddNodeId(g.nodes, u), v);
    if !HasEdge(g.edges, u, v) {
      UniqueEdgesSnoc(g.edges, u, v);
    }
  }

  /** `add_edges_from` keeps a graph valid. */
  lemma {:induction false} ValidWithEdges(g: GraphValue, es: seq<Edge>)
    requires ValidGraph(g)
    ensures ValidGraph(WithEdges(g, es))
    decreases |es|
  {
    if es != [] {
      ValidWithEdge(g, es[0].0, es[0].1);
      ValidWithEdges(WithEdge(g, es[0].0, es[0].1), es[1..]);
    }
  }

  /** `remove_edges_from` keeps a graph valid. */
  lemma ValidWithoutAll(g: GraphValue, rs: seq<Edge>)
    requires ValidGraph(g)
    ensures ValidGraph(g.(edges := WithoutAll(g.edges, rs)))
  {
    UniqueEdgesWithoutAll(g.edges, rs);
  }

  /** `add_node` keeps a graph valid. */
  lemma ValidWithNode(g: GraphValue, n: int, d: NodeData)
    requires ValidGraph(g)
    ensures ValidGraph(WithNode(g, n, d))
  {
    AddNodeIdUnique(g.nodes, n);
  }

  /** `remove_node` keeps a graph valid. */
  lemma ValidWithoutNode(g: GraphValue, n: int)
    requires ValidGraph(g)
    ensures ValidGraph(WithoutNode(g, n))
  {
    UniqueDrop(g.nodes, n);
    UniqueEdgesDetach(g.edges, n);
  }

  // ---------------------------------------------------------------------------------------------
  // The graph object

  class Graph {
    var nodes: seq<int>
    var data: map<int, NodeData>
    var edges: seq<Edge>

    function Value(): GraphValue
      reads this
    {
      GraphValue(nodes, data, edges)
    }

    constructor (v: GraphValue)
      ensures Value() == v
    {
      nodes, data, edges := v.nodes, v.data, v.edges;
    }

    method RemoveEdgesFrom(rs: seq<Edge>)
      modifies this
      ensures Value() == old(Value()).(edges := WithoutAll(old(edges), rs))
    {
      edges := WithoutAll(edges, rs);
    }

    method AddEdgesFrom(es: seq<Edge>)
      modifies this
      ensures Value() == WithEdges(old(Value()), es)
    {
      var v := WithEdges(Value(), es);
      nodes, data, edges := v.nodes, v.data, v.edges;
    }

    method AddEdge(u: int, v: int)
      modifies this
      ensures Value() == WithEdge(old(Value()), u, v)
    {
      var r := WithEdge(Value(), u, v);
      nodes, edges := r.nodes, r.edges;
    }

    method AddNode(n: int, d: NodeData)
      modifies this
      ensures Value() == WithNode(old(Value()), n, d)
    {
      nodes, data := AddNodeId(nodes, n), data[n := d];
    }

    method RemoveNode(n: int)
      modifies this
      ensures Value() == WithoutNode(old(Value()), n)
    {
      nodes, data, edges := Drop(nodes, n), data - {n}, Detach(edges, n);
    }
  }
}
